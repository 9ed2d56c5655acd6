/** The journalled kernel writer: every creation and deletion runs between a durable intent
    and its acknowledgement, and any doubt quarantines the backend for good. */
module NetlinkBackend {
  import opened Basics
  import opened RemoteRoutes
  import opened RemoteBindings
  import opened RemotePolling
  import opened OwnershipJournal
  import opened NetlinkReceipts
  import opened NetlinkKernel

  const CHECKPOINT := "importer-checkpoint"

  datatype Payload = Checkpoint(state: State) | Mutation(state: State, object: Object)

  /** Every entry we created is claimed; without foreign writers every claim is in place too. */
  ghost predicate Accounts(receipts: map<string, Receipt>, mine: set<Entry>, foreign: bool)
  {
    mine <= Held(receipts) && (!foreign ==> mine == Held(receipts))
  }

  /** What a journal record promises a restarted process about the kernel. A quarantined record is
      never trusted, but without foreign writers its claims are exact as well. */
  ghost predicate RecordFits(kit: Kit, r: Record<State, Payload>, mine: set<Entry>, foreign: bool)
  {
    r.pending.None? ==>
      if r.state.None? then mine == {}
      else var st := r.state.value;
           && (st.quarantined || (Shaped(kit, st) && Settled(st.receipts) && Accounts(st.receipts, mine, foreign)))
           && (!foreign ==> mine == Held(st.receipts))
  }

  ghost predicate SiteFits(kit: Kit, kernel: Kernel, disk: Disk<State, Payload>)
    reads kernel, disk
  {
    && kernel.Valid() && disk.Valid() && (!kernel.foreign ==> Alone(kernel.mine, kernel.others))
    && (if disk.files.Stored? then RecordFits(kit, disk.files.record, kernel.mine, kernel.foreign) else kernel.mine == {})
  }

  /** What one object of one receipt becomes; everything else stays. */
  function Update(receipts: map<string, Receipt>, key: string, part: Part, o: Object): map<string, Receipt>
    requires key in receipts
  {
    receipts[key := Put(receipts[key], part, o)]
  }

  /** The recorded request never changes, so neither do identity, mapping and slots. */
  lemma ShapedUpdate(kit: Kit, st: State, key: string, part: Part, o: Object)
    requires Shaped(kit, st) && key in st.receipts && Has(st.receipts[key], part)
    requires o.request == Get(st.receipts[key], part).request
    ensures Shaped(kit, st.(receipts := Update(st.receipts, key, part, o)))
  {
    var after := st.(receipts := Update(st.receipts, key, part, o));
    UnaliasedSameRequests(st.receipts, key, Put(st.receipts[key], part, o));
    forall k ensures ShapedAt(kit, after, k) { assert ShapedAt(kit, st, k); }
  }

  lemma SettledUpdate(receipts: map<string, Receipt>, key: string, part: Part, o: Object)
    requires Settled(receipts) && key in receipts && Has(receipts[key], part)
    requires ObjectSettled(o, receipts[key].retiring)
    ensures Settled(Update(receipts, key, part, o))
  {
    var after := Update(receipts, key, part, o);
    forall k ensures SettledAt(after, k) { assert SettledAt(receipts, k); }
  }

  /** The readback that confirms an object: the recorded one once it is confirmed, otherwise the
      request with the type the kernel derived. */
  function Expected(o: Object, e: Entry): Entry
  {
    if o.status == Confirmed then o.observed
    else if o.request.kind == 0 && o.request.family != Bridge && (e.kind == RTN_UNICAST || e.kind == RTN_BROADCAST) then
      o.request.(kind := e.kind)
    else o.request
  }

  /** A first readback is one that recovery accepts exactly when the kernel derived a type. */
  lemma FirstReadback(o: Object, e: Entry)
    requires o.status != Confirmed && e == Expected(o, e)
    requires if o.request.family == Bridge then o.request.kind == RTN_UNICAST else o.request.kind == 0
    ensures ReadsBack(o.request, e) <==> Typed(e)
  {
  }

  /** Without a derived type a neighbor would be confirmed and then refused by every restart. */
  lemma UntypedReadback()
    ensures
      var request := Entry(Inet, 7, "02:00:00:00:00:01", "10.0.0.1", NUD_NOARP, NTF_EXT_LEARNED, 0, 0);
      var o := Object(request, NO_ENTRY, Pending, true, false);
      request == Expected(o, request) && !ObjectValid(o.(observed := request, status := Confirmed))
  {
  }

  lemma Singleton(s: set<Entry>, e: Entry)
    requires |s| == 1 && e in s
    ensures s == {e}
  {
    assert |s - {e}| == 0;
  }

  /** The verdict on one slot reading. */
  method Judge(o: Object, found: set<Entry>, absent: bool) returns (after: Object)
    ensures after.request == o.request
    ensures if absent then after == o.(status := if found == {} then AbsentConfirmed else Conflict)
            else if found == {after.observed} && after.observed == Expected(o, after.observed) then
              after == o.(status := Confirmed, observed := after.observed)
            else after == o.(status := Conflict)
    ensures after.status == Conflict ==> after == o.(status := Conflict)
  {
    after := o.(status := Conflict);
    if absent {
      if found == {} { after := o.(status := AbsentConfirmed); }
    } else if |found| == 1 {
      var e :| e in found;
      Singleton(found, e);
      if e == Expected(o, e) { after := o.(status := Confirmed, observed := e); }
    }
  }

  lemma ShapedIgnoresQuarantine(kit: Kit, st: State, quarantined: bool)
    requires Shaped(kit, st)
    ensures Shaped(kit, st.(quarantined := quarantined))
  {
    forall k ensures ShapedAt(kit, st.(quarantined := quarantined), k) { assert ShapedAt(kit, st, k); }
  }

  lemma UpdateTwice(receipts: map<string, Receipt>, key: string, part: Part, a: Object, b: Object)
    requires key in receipts && Has(receipts[key], part)
    ensures Update(Update(receipts, key, part, a), key, part, b) == Update(receipts, key, part, b)
  {
  }

  /** A creation whose readback is alone in its slot adds exactly that entry to the accounts:
      whatever the kernel stored for us can only be the entry that was read back. */
  lemma CreatedAccounts(receipts: map<string, Receipt>, key: string, part: Part, o: Object, stored: Entry,
                        before: set<Entry>, mine: set<Entry>, others: set<Entry>, foreign: bool)
    requires key in receipts && Has(receipts[key], part) && !Holds(receipts[key], part) && o.status == Confirmed
    requires Accounts(receipts, before, foreign)
    requires mine <= before + {stored} && (!foreign ==> mine == before + {stored})
    requires SameSlot(stored, o.request) && InSlot(mine + others, o.request) == {o.observed}
    ensures Accounts(Update(receipts, key, part, o), mine, foreign)
  {
    HeldAfterConfirm(receipts, key, part, o);
    assert stored in mine ==> stored in InSlot(mine + others, o.request);
  }

  /** A deletion with confirmed absence removes exactly the confirmed entry from the accounts. */
  lemma DeletedAccounts(receipts: map<string, Receipt>, key: string, part: Part, o: Object, before: set<Entry>,
                        mine: set<Entry>, foreign: bool)
    requires Unaliased(receipts) && Settled(receipts)
    requires key in receipts && Holds(receipts[key], part) && o.status != Confirmed
    requires Accounts(receipts, before, foreign)
    requires
      var gone := Get(receipts[key], part).observed;
      mine <= before && gone !in mine && (!foreign ==> mine == before - {gone})
    ensures Accounts(Update(receipts, key, part, o), mine, foreign)
  {
    HeldAfterRelease(receipts, key, part, o);
  }

  /** Seeing the slot empty releases an object, whether or not a foreign writer removed it. */
  lemma ReleasedAccounts(receipts: map<string, Receipt>, key: string, part: Part, o: Object, mine: set<Entry>,
                         others: set<Entry>, foreign: bool)
    requires Unaliased(receipts) && Settled(receipts) && Accounts(receipts, mine, foreign)
    requires key in receipts && Has(receipts[key], part) && o.status != Confirmed
    requires InSlot(mine + others, Get(receipts[key], part).request) == {}
    ensures Accounts(Update(receipts, key, part, o), mine, foreign)
  {
    if Holds(receipts[key], part) {
      var gone := Get(receipts[key], part).observed;
      SettledReadsBack(receipts, key, part);
      assert gone !in InSlot(mine + others, Get(receipts[key], part).request);
      HeldMembers(receipts, gone);
      assert HeldBy(receipts, key, part, gone);
      HeldAfterRelease(receipts, key, part, o);
    } else {
      HeldUnchanged(receipts, key, part, o);
    }
  }

  // ---------------------------------------------------------------- routes and receipts

  /** What the importer asks for: an endpoint on named devices, in one incarnation. */
  datatype Route = Route(endpoint: Endpoint, vxlan: string, bridge: string, incarnation: nat, generation: nat,
                         retiring: bool)

  predicate Serves(n: Network, route: Route)
  {
    && n.networkID == route.endpoint.networkID && n.vni == route.endpoint.vni
    && n.vxlan == route.vxlan && n.bridge == route.bridge
  }

  function NewReceipt(kit: Kit, st: State, n: Network, route: Route): Receipt
    requires n.bridge in st.devices && n.vxlan in st.devices
  {
    Receipt(st.owner, n, route.endpoint, route.incarnation, route.generation, [st.devices[n.bridge], st.devices[n.vxlan]],
            Object(FDBRequest(st.devices[n.vxlan], route.endpoint), NO_ENTRY, Unattempted, false, false),
            if route.endpoint.ip == "" then None
            else Some(Object(NeighborRequest(kit, st.devices[n.bridge], route.endpoint), NO_ENTRY, Unattempted, false, false)),
            PartiallyApplied, false)
  }

  /** No other receipt claims a slot of this one. */
  ghost predicate Vacant(receipts: map<string, Receipt>, key: string, r: Receipt)
  {
    forall k, p, q | k in receipts && k != key && Has(receipts[k], p) && Has(r, q) ::
      !SameSlot(Get(receipts[k], p).request, Get(r, q).request)
  }

  ghost predicate RouteVacant(kit: Kit, st: State, route: Route)
  {
    forall n | n in st.networks && TopologyOk(st.devices, n) && Serves(n, route) ::
      Vacant(st.receipts, route.endpoint.key, NewReceipt(kit, st, n, route))
  }

  /** The same receipt up to evidence and stage. */
  predicate SameClaim(a: Receipt, b: Receipt)
  {
    a == b.(fdb := a.fdb, neighbor := a.neighbor, status := a.status, retiring := a.retiring)
  }

  predicate Belongs(r: Receipt, owner: string, route: Route)
  {
    r.owner == owner && r.generation == route.generation && r.incarnation == route.incarnation
    && r.endpoint == route.endpoint
  }

  predicate Complete(r: Receipt)
  {
    r.status == Applied && Holds(r, FDB) && (r.neighbor.Some? ==> Holds(r, Neighbor))
  }

  lemma ShapedInsert(kit: Kit, st: State, n: Network, route: Route)
    requires Shaped(kit, st) && n in st.networks && Serves(n, route) && route.endpoint.key !in st.receipts
    requires route.endpoint.key == kit.hash(route.endpoint.networkID, route.endpoint.mac, route.endpoint.ip)
    requires route.endpoint.validationState == "validated" && route.endpoint.routes != []
    requires route.incarnation != 0 && 0 < route.generation <= st.snapshot.generation
    requires TopologyOk(st.devices, n) && RouteVacant(kit, st, route)
    ensures
      var key, r := route.endpoint.key, NewReceipt(kit, st, n, route);
      Shaped(kit, st.(receipts := st.receipts[key := r], latest := st.latest[key := route.incarnation]))
  {
    var key, r := route.endpoint.key, NewReceipt(kit, st, n, route);
    var after := st.(receipts := st.receipts[key := r], latest := st.latest[key := route.incarnation]);
    forall k ensures ShapedAt(kit, after, k) { assert ShapedAt(kit, st, k); }
    forall k, p, l, q ensures Apart(after.receipts, k, p, l, q) {
      assert Apart(st.receipts, k, p, l, q);
      assert p == FDB || p == Neighbor;
      assert q == FDB || q == Neighbor;
    }
  }

  lemma ShapedStage(kit: Kit, st: State, key: string, status: RouteStatus, retiring: bool)
    requires Shaped(kit, st) && key in st.receipts
    ensures
      var r := st.receipts[key].(status := status, retiring := retiring);
      Shaped(kit, st.(receipts := st.receipts[key := r]))
  {
    var r := st.receipts[key].(status := status, retiring := retiring);
    var after := st.(receipts := st.receipts[key := r]);
    UnaliasedSameRequests(st.receipts, key, r);
    forall k ensures ShapedAt(kit, after, k) { assert ShapedAt(kit, st, k); }
  }

  lemma ShapedRemoval(kit: Kit, st: State, key: string)
    requires Shaped(kit, st)
    ensures Shaped(kit, st.(receipts := st.receipts - {key}))
  {
    var after := st.(receipts := st.receipts - {key});
    UnaliasedRemoval(st.receipts, key);
    forall k ensures ShapedAt(kit, after, k) { assert ShapedAt(kit, st, k); }
  }

  lemma SettledReplace(receipts: map<string, Receipt>, key: string, r: Receipt)
    requires Settled(receipts) && ReceiptSettled(r)
    ensures Settled(receipts[key := r]) && Settled(receipts - {key})
  {
    var after, less := receipts[key := r], receipts - {key};
    forall k ensures SettledAt(after, k) && SettledAt(less, k) { assert SettledAt(receipts, k); }
  }

  // ---------------------------------------------------------------- recovery

  function SlotKey(e: Entry): (Family, int, string)
  {
    (e.family, e.ifindex, if e.family == Bridge then e.mac else e.ip)
  }

  function Slots(r: Receipt): set<(Family, int, string)>
  {
    {SlotKey(r.fdb.request)} + if r.neighbor.Some? then {SlotKey(r.neighbor.value.request)} else {}
  }

  ghost predicate ApartWithin(receipts: map<string, Receipt>, done: set<string>)
  {
    forall k, p, l, q | k in done && l in done :: Apart(receipts, k, p, l, q)
  }

  lemma ApartExtends(receipts: map<string, Receipt>, done: set<string>, key: string, slots: set<(Family, int, string)>)
    requires ApartWithin(receipts, done) && key in receipts && key !in done && done <= receipts.Keys
    requires forall k | k in done :: Slots(receipts[k]) <= slots
    requires Slots(receipts[key]) !! slots
    requires receipts[key].neighbor.Some? ==>
      !SameSlot(receipts[key].fdb.request, receipts[key].neighbor.value.request)
    ensures ApartWithin(receipts, done + {key})
  {
    forall k, p, l, q | k in done + {key} && l in done + {key} ensures Apart(receipts, k, p, l, q) {
      if k in done && l in done {
      } else if k in receipts && l in receipts && Has(receipts[k], p) && Has(receipts[l], q) && (k != l || p != q) {
        SlotsMember(receipts[k], p);
        SlotsMember(receipts[l], q);
        if k == l { assert p == FDB || p == Neighbor; assert q == FDB || q == Neighbor; }
      }
    }
  }

  lemma SlotsMember(r: Receipt, part: Part)
    requires Has(r, part)
    ensures SlotKey(Get(r, part).request) in Slots(r)
  {
    assert part == FDB || part == Neighbor;
  }

  lemma SlotsOwner(r: Receipt, slot: (Family, int, string)) returns (part: Part)
    requires slot in Slots(r)
    ensures Has(r, part) && SlotKey(Get(r, part).request) == slot
  {
    part := if slot == SlotKey(r.fdb.request) then FDB else Neighbor;
  }

  /** A slot seen twice is a pair of objects on one kernel slot. */
  lemma Aliased(receipts: map<string, Receipt>, k: string, l: string, slot: (Family, int, string))
    requires k in receipts && l in receipts && k != l && slot in Slots(receipts[k]) && slot in Slots(receipts[l])
    ensures !Unaliased(receipts)
  {
    var p := SlotsOwner(receipts[k], slot);
    var q := SlotsOwner(receipts[l], slot);
    assert !Apart(receipts, k, p, l, q);
  }

  ghost predicate Occupied(receipts: map<string, Receipt>, done: set<string>, slots: set<(Family, int, string)>,
                           x: (Family, int, string))
  {
    x in slots ==> exists k :: k in done && k in receipts && x in Slots(receipts[k])
  }

  ghost predicate Covered(receipts: map<string, Receipt>, done: set<string>, slots: set<(Family, int, string)>, k: string)
  {
    k in done && k in receipts ==> Slots(receipts[k]) <= slots
  }

  /** The receipts in `done` occupy exactly `slots`, each slot once. */
  ghost predicate Scanned(receipts: map<string, Receipt>, done: set<string>, slots: set<(Family, int, string)>)
  {
    && done <= receipts.Keys && ApartWithin(receipts, done)
    && (forall k :: Covered(receipts, done, slots, k))
    && (forall x :: Occupied(receipts, done, slots, x))
  }

  lemma ScanExtends(receipts: map<string, Receipt>, done: set<string>, slots: set<(Family, int, string)>, key: string)
    requires Scanned(receipts, done, slots) && key in receipts && key !in done
    requires Slots(receipts[key]) !! slots
    requires receipts[key].neighbor.Some? ==>
      !SameSlot(receipts[key].fdb.request, receipts[key].neighbor.value.request)
    ensures Scanned(receipts, done + {key}, slots + Slots(receipts[key]))
  {
    var now, all := done + {key}, slots + Slots(receipts[key]);
    forall k ensures Covered(receipts, now, all, k) { assert Covered(receipts, done, slots, k); }
    forall k | k in done ensures Slots(receipts[k]) <= slots { assert Covered(receipts, done, slots, k); }
    ApartExtends(receipts, done, key, slots);
    forall x ensures Occupied(receipts, now, all, x) {
      assert Occupied(receipts, done, slots, x);
      if x in slots {
        var k :| k in done && k in receipts && x in Slots(receipts[k]);
        assert k in now;
      } else if x in all {
        assert key in now;
      }
    }
  }

  lemma ScanClash(receipts: map<string, Receipt>, done: set<string>, slots: set<(Family, int, string)>, key: string,
                  x: (Family, int, string))
    requires Scanned(receipts, done, slots) && key in receipts && key !in done
    requires x in slots && x in Slots(receipts[key])
    ensures !Unaliased(receipts)
  {
    assert Occupied(receipts, done, slots, x);
    var k :| k in done && k in receipts && x in Slots(receipts[k]);
    Aliased(receipts, key, k, x);
  }

  lemma ScanComplete(receipts: map<string, Receipt>, slots: set<(Family, int, string)>)
    requires Scanned(receipts, receipts.Keys, slots)
    ensures Unaliased(receipts)
  {
    forall k, p, l, q ensures Apart(receipts, k, p, l, q) { }
  }

  /** One pass with a set of used slots decides whether any two objects share a slot. */
  method DistinctSlots(receipts: map<string, Receipt>) returns (ok: bool)
    ensures ok <==> Unaliased(receipts)
  {
    var todo, slots := receipts.Keys, {};
    ghost var done := {};
    while todo != {}
      invariant done + todo == receipts.Keys && done !! todo && Scanned(receipts, done, slots)
      decreases |todo|
    {
      var key :| key in todo;
      var r := receipts[key];
      if r.neighbor.Some? && SlotKey(r.fdb.request) == SlotKey(r.neighbor.value.request) {
        assert !Apart(receipts, key, FDB, key, Neighbor);
        return false;
      }
      if x :| x in Slots(r) && x in slots {
        ScanClash(receipts, done, slots, key, x);
        return false;
      }
      ScanExtends(receipts, done, slots, key);
      slots, todo, done := slots + Slots(r), todo - {key}, done + {key};
    }
    assert done == receipts.Keys;
    ScanComplete(receipts, slots);
    return true;
  }

  /** The recovery gate: topology, identity, stage, mapping, evidence and distinct slots. */
  method ValidateReceipts(kit: Kit, st: State) returns (ok: bool)
    ensures ok <==> ValidReceipts(kit, st)
  {
    if exists n | n in st.networks :: !TopologyOk(st.devices, n) { return false; }
    if exists key | key in st.receipts :: !ReceiptValid(kit, st, key, st.receipts[key]) { return false; }
    ok := DistinctSlots(st.receipts);
  }

  /** The kernel slot of an object is exactly as its receipt records it. */
  ghost predicate AsRecorded(visible: set<Entry>, r: Receipt, part: Part)
  {
    Has(r, part) ==>
      InSlot(visible, Get(r, part).request) == if Holds(r, part) then {Get(r, part).observed} else {}
  }

  ghost predicate RecordedAt(visible: set<Entry>, receipts: map<string, Receipt>, done: set<string>, k: string, p: Part)
  {
    k in done && k in receipts ==> AsRecorded(visible, receipts[k], p)
  }

  ghost predicate AllAsRecorded(visible: set<Entry>, receipts: map<string, Receipt>, done: set<string>)
  {
    forall k, p :: RecordedAt(visible, receipts, done, k, p)
  }

  lemma RecordedExtends(visible: set<Entry>, receipts: map<string, Receipt>, done: set<string>, key: string, r: Receipt)
    requires AllAsRecorded(visible, receipts, done) && forall p :: AsRecorded(visible, r, p)
    ensures AllAsRecorded(visible, receipts[key := r], done + {key})
  {
    var after, now := receipts[key := r], done + {key};
    forall k, p ensures RecordedAt(visible, after, now, k, p) {
      assert RecordedAt(visible, receipts, done, k, p) && AsRecorded(visible, r, p);
    }
  }

  predicate SameObject(a: Receipt, b: Receipt, part: Part)
  {
    Has(a, part) == Has(b, part) && (Has(a, part) ==> Get(a, part) == Get(b, part))
  }

  /** The same receipts up to evidence and stage. */
  ghost predicate SameClaims(a: map<string, Receipt>, b: map<string, Receipt>)
  {
    a.Keys == b.Keys && forall k :: SameClaimAt(a, b, k)
  }

  ghost predicate SameClaimAt(a: map<string, Receipt>, b: map<string, Receipt>, k: string)
  {
    k in a && k in b ==> SameClaim(a[k], b[k])
  }

  lemma SameClaimsExtend(a: map<string, Receipt>, b: map<string, Receipt>, key: string, r: Receipt)
    requires SameClaims(a, b) && key in a && SameClaim(r, a[key])
    ensures SameClaims(a[key := r], b)
  {
    var after := a[key := r];
    forall k ensures SameClaimAt(after, b, k) { assert SameClaimAt(a, b, k); }
  }

  predicate LooksRemote(e: Entry)
  {
    (e.flags / NTF_EXT_LEARNED) % 2 == 1 || (e.family == Bridge && e.ip != "")
  }

  /** Marked as externally learned (0x10), or a bridge entry with a tunnel destination. */
  ghost predicate Remotely(e: Entry)
  {
    (e.flags / 0x10) % 2 == 1 || (e.family == Bridge && |e.ip| > 0)
  }

  class Backend {
    const kit: Kit
    const kernel: Kernel
    const journal: Journal<State, Payload>
    const owner: string
    const networks: seq<Network>
    const devices: map<string, Device>
    var receipts: map<string, Receipt>
    var latest: map<string, nat>
    var snapshot: Snapshot
    var blocked: bool

    constructor (kit: Kit, kernel: Kernel, journal: Journal<State, Payload>, st: State)
      ensures this.kit == kit && this.kernel == kernel && this.journal == journal
      ensures Durable() == st.(quarantined := false) && !blocked
    {
      this.kit, this.kernel, this.journal := kit, kernel, journal;
      owner, networks, devices := st.owner, st.networks, st.devices;
      receipts, latest, snapshot, blocked := st.receipts, st.latest, st.snapshot, false;
    }

    function Durable(): State
      reads this
    {
      State(owner, networks, devices, receipts, latest, snapshot, blocked)
    }

    /** Nothing is in doubt: the backend may still change the kernel. */
    ghost predicate Live()
      reads this, journal
    {
      !blocked && !journal.blocked && journal.record.pending.None?
    }

    ghost predicate Consistent()
      reads this, kernel
    {
      Settled(receipts) && Accounts(receipts, kernel.mine, kernel.foreign)
    }

    /** Whenever no intent is pending, blocked or not, the claims in memory are exact. */
    ghost predicate Conserved()
      reads this, kernel, journal
    {
      journal.record.pending.None? && !kernel.foreign ==> kernel.mine == Held(receipts)
    }

    ghost predicate Valid()
      reads this, kernel, journal, journal.disk
    {
      && journal.Valid() && SiteFits(kit, kernel, journal.disk)
      && Shaped(kit, Durable())
      && (Live() ==> Consistent()) && Conserved()
    }

    /** Without foreign writers a held entry is still there and alone in its slot. */
    lemma HeldIsAlone(key: string, part: Part)
      requires Valid() && Live() && !kernel.foreign && key in receipts && Holds(receipts[key], part)
      ensures InSlot(kernel.Visible(), Get(receipts[key], part).request) == {Get(receipts[key], part).observed}
    {
      var o := Get(receipts[key], part);
      SettledReadsBack(receipts, key, part);
      HeldMembers(receipts, o.observed);
      assert HeldBy(receipts, key, part, o.observed);
      forall e | e in InSlot(kernel.Visible(), o.request) ensures e == o.observed {
        assert AloneAt(kernel.mine, kernel.others, o.observed, e);
      }
    }

    lemma CreatedConsistent(settled: map<string, Receipt>, key: string, part: Part, o: Object, stored: Entry,
                            before: set<Entry>)
      requires kernel.Valid() && Shaped(kit, Durable().(receipts := settled))
      requires key in settled && Has(settled[key], part) && !settled[key].retiring && !Holds(settled[key], part)
      requires Settled(settled) && Accounts(settled, before, kernel.foreign)
      requires receipts == Update(settled, key, part, o)
      requires
        var asked := Get(settled[key], part);
        o == asked.(status := Confirmed, ack := true, observed := o.observed)
        && o.observed == Expected(asked.(status := Pending), o.observed)
      requires SameSlot(stored, o.request) && InSlot(kernel.Visible(), o.request) == {o.observed}
      requires kernel.mine <= before + {stored} && (!kernel.foreign ==> kernel.mine == before + {stored})
      ensures Consistent()
    {
      assert o.observed in InSlot(kernel.Visible(), o.request);
      assert TypedAt(kernel.mine, kernel.others, o.observed);
      assert SettledAt(settled, key) && ShapedAt(kit, Durable().(receipts := settled), key);
      FirstReadback(Get(settled[key], part).(status := Pending), o.observed);
      SettledUpdate(settled, key, part, o);
      CreatedAccounts(settled, key, part, o, stored, before, kernel.mine, kernel.others, kernel.foreign);
    }

    // -------------------------------------------------------------- durable steps

    method Acknowledge(sequence: nat) returns (ok: bool)
      requires Valid() && (blocked || Consistent()) && (!kernel.foreign ==> kernel.mine == Held(receipts))
      modifies this`blocked, journal`record, journal`blocked, journal.disk
      ensures Valid()
      ensures ok ==> !journal.blocked && journal.record.pending.None? && blocked == old(blocked)
      ensures ok ==> journal.record.state == Some(Durable()) && journal.record.sequence == old(journal.record.sequence)
      ensures !ok ==> blocked
      ensures journal.disk.reliable && old(journal.CanCommit(sequence)) ==> ok
    {
      ok := journal.Commit(sequence, Durable());
      if !ok { Block(); }
    }

    method Checkpoint() returns (ok: bool)
      requires Valid()
      modifies this`blocked, journal`record, journal`blocked, journal.disk
      ensures Valid()
      ensures ok ==> !journal.blocked && journal.record.pending.None? && blocked == old(blocked)
      ensures ok ==> journal.record.state == Some(Durable()) && (blocked || Consistent())
      ensures ok ==> journal.record.sequence == old(journal.record.sequence) + 1
      ensures !ok ==> blocked
      ensures journal.disk.reliable && old(journal.CanBegin(CHECKPOINT)) ==> ok
      ensures old(journal.record.pending).Some? ==>
        !ok && journal.record == old(journal.record) && journal.disk.files == old(journal.disk.files)
    {
      var sequence := journal.Begin(CHECKPOINT, Payload.Checkpoint(Durable()));
      if sequence.None? {
        Block();
        return false;
      }
      ok := Acknowledge(sequence.value);
    }

    method Block()
      requires Valid()
      modifies this`blocked
      ensures Valid() && blocked
    {
      ShapedIgnoresQuarantine(kit, Durable(), true);
      blocked := true;
    }

    /** An intent that is already pending fences recovery and is never overwritten. */
    method Quarantine()
      requires Valid() && blocked
      modifies this`blocked, journal`record, journal`blocked, journal.disk
      ensures Valid() && blocked
      ensures old(journal.record.pending).Some? ==>
        journal.record == old(journal.record) && journal.disk.files == old(journal.disk.files)
    {
      var s := journal.Snapshot();
      if s.Snap? && s.pending.None? {
        var _ := Checkpoint();
      }
    }

    /** Fails on cancellation, close, a blocked journal, a lost marker and any change of a
        managed device; all but the first two quarantine the backend. `cancelled` says that the
        context was cancelled before the call; it may also be cancelled at any later time. */
    method Check(cancelled: bool) returns (ok: bool)
      requires Valid()
      modifies this`blocked, journal`record, journal`blocked, journal.disk
      ensures Valid()
      ensures ok ==> !blocked && !journal.blocked
      ensures ok || old(journal.record.pending).Some? ==>
        journal.record == old(journal.record) && journal.disk.files == old(journal.disk.files)
      ensures old(blocked) ==> blocked
      ensures cancelled ==> !ok && blocked == old(blocked) && journal.blocked == old(journal.blocked)
      ensures cancelled ==> journal.record == old(journal.record)
    {
      var later: bool := *;
      if cancelled || later { return false; }
      var s := journal.Snapshot();
      var intact: bool := *;
      if s.Blocked? || !intact { Block(); }
      if blocked {
        Quarantine();
        return false;
      }
      return true;
    }

    method Slot(want: Entry) returns (found: Option<set<Entry>>)
      requires Valid()
      modifies this`blocked, journal`record, journal`blocked, journal.disk, kernel
      ensures Valid()
      ensures found.Some? ==> !blocked && !journal.blocked && found.value == InSlot(kernel.Visible(), want)
      ensures found.Some? || old(journal.record.pending).Some? ==>
        journal.record == old(journal.record) && journal.disk.files == old(journal.disk.files)
      ensures kernel.mine <= old(kernel.mine)
      ensures !kernel.foreign ==> kernel.mine == old(kernel.mine) && kernel.others == old(kernel.others)
      ensures old(blocked) ==> blocked
    {
      var ok := Check(false);
      if !ok { return None; }
      var entries := kernel.List(want.ifindex, want.family);
      if entries.None? {
        Block();
        Quarantine();
        return None;
      }
      found := Some(set e | e in entries.value && SameSlot(e, want));
    }

    // -------------------------------------------------------------- one kernel object

    /** Records new evidence about one object. */
    method Revise(key: string, part: Part, o: Object)
      requires Valid() && key in receipts && Has(receipts[key], part)
      requires o.request == Get(receipts[key], part).request
      requires Live() ==> Settled(Update(receipts, key, part, o))
      requires Live() ==> Accounts(Update(receipts, key, part, o), kernel.mine, kernel.foreign)
      requires journal.record.pending.None? && !kernel.foreign ==> kernel.mine == Held(Update(receipts, key, part, o))
      modifies this`receipts
      ensures Valid() && receipts == Update(old(receipts), key, part, o)
      ensures key in receipts && Has(receipts[key], part) && Get(receipts[key], part) == o
    {
      ShapedUpdate(kit, Durable(), key, part, o);
      receipts := Update(receipts, key, part, o);
    }

    /** Records that an object whose slot is empty is not there. */
    method GiveUp(key: string, part: Part, o: Object)
      requires Valid() && key in receipts && Has(receipts[key], part)
      requires o.request == Get(receipts[key], part).request && o.status != Confirmed
      requires ObjectSettled(o, receipts[key].retiring) && InSlot(kernel.Visible(), o.request) == {}
      requires Live() || journal.record.pending.Some?
      modifies this`receipts
      ensures Valid() && receipts == Update(old(receipts), key, part, o)
      ensures key in receipts && Has(receipts[key], part) && Get(receipts[key], part) == o
    {
      if Live() {
        SettledUpdate(receipts, key, part, o);
        ReleasedAccounts(receipts, key, part, o, kernel.mine, kernel.others, kernel.foreign);
      }
      Revise(key, part, o);
    }

    /** Evidence that is not settled needs an outstanding intent or a block, and without an intent
        it never touches a claim unless foreign writers do. */
    method Note(key: string, part: Part, o: Object)
      requires Valid() && key in receipts && Has(receipts[key], part)
      requires o.request == Get(receipts[key], part).request
      requires !Live() || o == Get(receipts[key], part)
      requires || journal.record.pending.Some? || kernel.foreign || o == Get(receipts[key], part)
               || (!Holds(receipts[key], part) && o.status != Confirmed)
      modifies this`receipts
      ensures Valid() && receipts == Update(old(receipts), key, part, o)
      ensures key in receipts && Has(receipts[key], part) && Get(receipts[key], part) == o
    {
      assert o == Get(receipts[key], part) ==> Update(receipts, key, part, o) == receipts;
      if !Holds(receipts[key], part) && o.status != Confirmed { HeldUnchanged(receipts, key, part, o); }
      Revise(key, part, o);
    }

    /** Reads the slot back. Presence must be exactly the expected entry, alone in its slot. */
    method Confirm(key: string, part: Part, absent: bool) returns (ok: bool)
      requires Valid() && key in receipts && Has(receipts[key], part)
      requires journal.record.pending.Some? || (!absent && Holds(receipts[key], part))
      modifies this`blocked, this`receipts, journal`record, journal`blocked, journal.disk, kernel
      ensures Valid() && key in receipts && Has(receipts[key], part)
      ensures ok ==> !blocked && !journal.blocked
      ensures ok || old(journal.record.pending).Some? ==>
        journal.record == old(journal.record) && journal.disk.files == old(journal.disk.files)
      ensures kernel.mine <= old(kernel.mine)
      ensures !kernel.foreign ==> kernel.mine == old(kernel.mine) && kernel.others == old(kernel.others)
      ensures
        var before, after := old(Get(receipts[key], part)), Get(receipts[key], part);
        && receipts == Update(old(receipts), key, part, after) && after.request == before.request
        && (ok && absent ==> after == before.(status := AbsentConfirmed) && InSlot(kernel.Visible(), before.request) == {})
        && (ok && !absent ==> after == before.(status := Confirmed, observed := after.observed)
                              && after.observed == Expected(before, after.observed)
                              && InSlot(kernel.Visible(), before.request) == {after.observed})
        && (!ok ==> after == before || (blocked && after == before.(status := Conflict)))
    {
      var o := Get(receipts[key], part);
      var found := Slot(o.request);
      if found.None? {
        assert receipts == Update(receipts, key, part, o);
        return false;
      }
      if Live() && !kernel.foreign { HeldIsAlone(key, part); }
      var after := Judge(o, found.value, absent);
      ok := after.status != Conflict;
      if ok {
        Note(key, part, after);
      } else {
        Dispute(key, part, after);
      }
    }

    /** A conflicting readback blocks the process and, unless an intent is pending, is made durable. */
    method Dispute(key: string, part: Part, o: Object)
      requires Valid() && key in receipts && Has(receipts[key], part)
      requires o.request == Get(receipts[key], part).request
      requires || journal.record.pending.Some? || kernel.foreign || o == Get(receipts[key], part)
               || (!Holds(receipts[key], part) && o.status != Confirmed)
      modifies this`blocked, this`receipts, journal`record, journal`blocked, journal.disk
      ensures Valid() && blocked && receipts == Update(old(receipts), key, part, o)
      ensures key in receipts && Has(receipts[key], part) && Get(receipts[key], part) == o
      ensures old(journal.record.pending).Some? ==>
        journal.record == old(journal.record) && journal.disk.files == old(journal.disk.files)
    {
      Block();
      Note(key, part, o);
      Quarantine();
    }

    /** A readback that failed after an acknowledged change blocks the process; the outcome is unknown. */
    method LeaveUnknown(key: string, part: Part, ghost settled: map<string, Receipt>)
      requires Valid() && journal.record.pending.Some? && key in settled && Has(settled[key], part)
      requires key in receipts && Has(receipts[key], part)
      requires receipts == Update(settled, key, part, Get(receipts[key], part))
      requires Get(receipts[key], part).request == Get(settled[key], part).request
      modifies this`blocked, this`receipts
      ensures Valid() && blocked && key in receipts && Has(receipts[key], part)
      ensures receipts == Update(settled, key, part, Get(receipts[key], part))
      ensures Get(receipts[key], part).request == Get(settled[key], part).request
    {
      var o := Get(receipts[key], part);
      Block();
      UpdateTwice(settled, key, part, o, o.(status := OutcomeUnknown));
      Note(key, part, o.(status := OutcomeUnknown));
    }

    /** Readback and acknowledgement of an acknowledged kernel add. */
    method FinishAdd(key: string, part: Part, sequence: nat, ghost settled: map<string, Receipt>,
                     ghost before: set<Entry>, ghost stored: Entry)
      returns (ok: bool)
      requires Valid() && journal.record.pending.Some?
      requires key in settled && Has(settled[key], part) && !settled[key].retiring && !Holds(settled[key], part)
      requires Shaped(kit, Durable().(receipts := settled, quarantined := false))
      requires Settled(settled) && Accounts(settled, before, kernel.foreign)
      requires receipts == Update(settled, key, part, Get(settled[key], part).(status := Pending, ack := true))
      requires SameSlot(stored, Get(settled[key], part).request)
      requires kernel.mine <= before + {stored} && (!kernel.foreign ==> kernel.mine == before + {stored})
      modifies this`blocked, this`receipts, journal`record, journal`blocked, journal.disk, kernel
      ensures Valid() && key in receipts && Has(receipts[key], part)
      ensures ok ==> Live() && Holds(receipts[key], part)
      ensures ok ==> InSlot(kernel.Visible(), Get(receipts[key], part).request) == {Get(receipts[key], part).observed}
      ensures !kernel.foreign ==> kernel.others == old(kernel.others)
      ensures receipts == Update(settled, key, part, Get(receipts[key], part))
      ensures Get(receipts[key], part).request == Get(settled[key], part).request
    {
      ok := ReadBackAdd(key, part, settled);
      if ok {
        ok := AcknowledgeAdd(key, part, sequence, settled, before, stored);
      } else {
        LeaveUnknown(key, part, settled);
      }
    }

    method ReadBackAdd(key: string, part: Part, ghost settled: map<string, Receipt>) returns (ok: bool)
      requires Valid() && journal.record.pending.Some? && key in settled && Has(settled[key], part)
      requires receipts == Update(settled, key, part, Get(settled[key], part).(status := Pending, ack := true))
      modifies this`blocked, this`receipts, journal`record, journal`blocked, journal.disk, kernel
      ensures Valid() && journal.record.pending.Some? && (ok ==> !blocked)
      ensures key in receipts && Has(receipts[key], part) && receipts == Update(settled, key, part, Get(receipts[key], part))
      ensures Get(receipts[key], part).request == Get(settled[key], part).request
      ensures kernel.mine <= old(kernel.mine)
      ensures !kernel.foreign ==> kernel.mine == old(kernel.mine) && kernel.others == old(kernel.others)
      ensures ok ==>
        var asked, o := Get(settled[key], part), Get(receipts[key], part);
        && o == asked.(status := Confirmed, ack := true, observed := o.observed)
        && o.observed == Expected(asked.(status := Pending), o.observed)
        && InSlot(kernel.Visible(), o.request) == {o.observed}
    {
      ghost var answered := Get(receipts[key], part);
      ok := Confirm(key, part, false);
      UpdateTwice(settled, key, part, answered, Get(receipts[key], part));
    }

    method AcknowledgeAdd(key: string, part: Part, sequence: nat, ghost settled: map<string, Receipt>,
                          ghost before: set<Entry>, ghost stored: Entry)
      returns (ok: bool)
      requires Valid() && !blocked && journal.record.pending.Some?
      requires key in settled && Has(settled[key], part) && !settled[key].retiring && !Holds(settled[key], part)
      requires Shaped(kit, Durable().(receipts := settled, quarantined := false))
      requires Settled(settled) && Accounts(settled, before, kernel.foreign)
      requires key in receipts && Has(receipts[key], part) && receipts == Update(settled, key, part, Get(receipts[key], part))
      requires
        var asked, o := Get(settled[key], part), Get(receipts[key], part);
        && o == asked.(status := Confirmed, ack := true, observed := o.observed)
        && o.observed == Expected(asked.(status := Pending), o.observed)
        && SameSlot(stored, o.request) && InSlot(kernel.Visible(), o.request) == {o.observed}
      requires kernel.mine <= before + {stored} && (!kernel.foreign ==> kernel.mine == before + {stored})
      modifies this`blocked, journal`record, journal`blocked, journal.disk
      ensures Valid() && (ok ==> Live())
    {
      CreatedConsistent(settled, key, part, Get(receipts[key], part), stored, before);
      ok := Acknowledge(sequence);
    }

    /** One exclusive add into a slot just seen empty; whatever it answers, no slot gets two owners. */
    method Attempt(request: Entry) returns (outcome: Outcome, ghost stored: Option<Entry>)
      requires Valid() && journal.record.pending.Some? && !journal.blocked && InSlot(kernel.Visible(), request) == {}
      modifies kernel
      ensures Valid()
      ensures stored.Some? ==> SameSlot(stored.value, request)
      ensures stored.Some? ==> kernel.mine <= old(kernel.mine) + {stored.value}
      ensures stored.Some? && !kernel.foreign ==> kernel.mine == old(kernel.mine) + {stored.value}
      ensures !kernel.foreign ==> kernel.others == old(kernel.others)
      ensures outcome.Done? ==> stored.Some?
    {
      ghost var ours, theirs := kernel.mine, kernel.others;
      outcome, stored := kernel.Add(request);
      if stored.Some? {
        if !kernel.foreign { AloneAfterAdd(ours, theirs, request, stored.value); }
      } else {
        assert !kernel.foreign ==> kernel.mine == ours;
      }
    }

    /** The kernel side of a creation whose intent is durable; `settled` is the state before it. */
    method AddEntry(key: string, part: Part, sequence: nat, ghost settled: map<string, Receipt>) returns (ok: bool)
      requires Valid() && journal.record.pending.Some?
      requires key in settled && Has(settled[key], part) && !settled[key].retiring && !Holds(settled[key], part)
      requires Shaped(kit, Durable().(receipts := settled, quarantined := false))
      requires Settled(settled) && Accounts(settled, kernel.mine, kernel.foreign)
      requires receipts == Update(settled, key, part, Get(settled[key], part).(status := Pending))
      modifies this`blocked, this`receipts, journal`record, journal`blocked, journal.disk, kernel
      ensures Valid() && key in receipts && Has(receipts[key], part)
      ensures ok ==> Live() && Holds(receipts[key], part)
      ensures ok ==> InSlot(kernel.Visible(), Get(receipts[key], part).request) == {Get(receipts[key], part).observed}
      ensures !kernel.foreign ==> kernel.others == old(kernel.others)
      ensures receipts == Update(settled, key, part, Get(receipts[key], part))
      ensures Get(receipts[key], part).request == Get(settled[key], part).request
    {
      ghost var before, stored := kernel.mine, NO_ENTRY;
      ok, stored := TryAdd(key, part, settled);
      if ok { ok := FinishAdd(key, part, sequence, settled, before, stored); }
    }

    /** A second look at the slot; anything in it blocks the process. */
    method Vacant(request: Entry) returns (free: bool)
      requires Valid() && journal.record.pending.Some?
      modifies this`blocked, journal`record, journal`blocked, journal.disk, kernel
      ensures Valid() && journal.record.pending.Some? && kernel.mine <= old(kernel.mine)
      ensures !kernel.foreign ==> kernel.mine == old(kernel.mine) && kernel.others == old(kernel.others)
      ensures free ==> !journal.blocked && InSlot(kernel.Visible(), request) == {}
    {
      var found := Slot(request);
      free := found == Some({});
      if found.Some? && !free { Block(); }
    }

    /** A second look at the slot, the exclusive add, and its answer in memory. */
    method TryAdd(key: string, part: Part, ghost settled: map<string, Receipt>) returns (done: bool, ghost stored: Entry)
      requires Valid() && journal.record.pending.Some?
      requires key in settled && Has(settled[key], part)
      requires receipts == Update(settled, key, part, Get(settled[key], part).(status := Pending))
      modifies this`blocked, this`receipts, journal`record, journal`blocked, journal.disk, kernel
      ensures Valid() && key in receipts && Has(receipts[key], part) && journal.record.pending.Some?
      ensures !kernel.foreign ==> kernel.others == old(kernel.others)
      ensures receipts == Update(settled, key, part, Get(receipts[key], part))
      ensures Get(receipts[key], part).request == Get(settled[key], part).request
      ensures done ==>
        && Get(receipts[key], part) == Get(settled[key], part).(status := Pending, ack := true)
        && SameSlot(stored, Get(settled[key], part).request)
        && kernel.mine <= old(kernel.mine) + {stored} && (!kernel.foreign ==> kernel.mine == old(kernel.mine) + {stored})
    {
      stored := NO_ENTRY;
      var trying := Get(receipts[key], part);
      done := Vacant(trying.request);
      if !done { return; }
      var outcome, entry := Attempt(trying.request);
      var answered := trying.(status := if outcome.Done? then Pending else if outcome.Rejected? then Failed else OutcomeUnknown,
                              ack := outcome.Done?);
      UpdateTwice(settled, key, part, trying, answered);
      Note(key, part, answered);
      done := outcome.Done?;
      if done {
        stored := entry.value;
      } else {
        Block();
      }
    }

    /** Creates an object nobody holds: durable intent, second look, exclusive add, readback, ack. */
    method Create(key: string, part: Part) returns (ok: bool)
      requires Valid() && !blocked && key in receipts && Has(receipts[key], part)
      requires !receipts[key].retiring && !Holds(receipts[key], part)
      modifies this`blocked, this`receipts, journal`record, journal`blocked, journal.disk, kernel
      ensures Valid() && key in receipts && Has(receipts[key], part)
      ensures ok ==> Live() && Holds(receipts[key], part)
      ensures ok ==> InSlot(kernel.Visible(), Get(receipts[key], part).request) == {Get(receipts[key], part).observed}
      ensures !kernel.foreign ==> kernel.others == old(kernel.others)
      ensures receipts == Update(old(receipts), key, part, Get(receipts[key], part))
      ensures Get(receipts[key], part).request == old(Get(receipts[key], part).request)
    {
      ghost var settled := receipts;
      var trying := Get(receipts[key], part).(status := Pending);
      var st := Durable().(receipts := Update(receipts, key, part, trying));
      var sequence := journal.Begin("netlink-add", Mutation(st, trying));
      if sequence.None? { Block(); }
      Note(key, part, trying);
      if sequence.None? { return false; }
      ok := AddEntry(key, part, sequence.value, settled);
    }

    /** Makes sure the object exists in the kernel and is ours. */
    method ApplyObject(key: string, part: Part) returns (ok: bool)
      requires Valid() && key in receipts && Has(receipts[key], part) && !receipts[key].retiring
      modifies this`blocked, this`receipts, journal`record, journal`blocked, journal.disk, kernel
      ensures Valid() && key in receipts && Has(receipts[key], part)
      ensures ok ==> !blocked && !journal.blocked && Holds(receipts[key], part)
      ensures ok ==> InSlot(kernel.Visible(), Get(receipts[key], part).request) == {Get(receipts[key], part).observed}
      ensures !kernel.foreign ==> kernel.others == old(kernel.others)
      ensures receipts == Update(old(receipts), key, part, Get(receipts[key], part))
      ensures Get(receipts[key], part).request == old(Get(receipts[key], part).request)
    {
      var o := Get(receipts[key], part);
      assert receipts == Update(receipts, key, part, o);
      if o.status == Confirmed {
        ok := Confirm(key, part, false);
        return;
      }
      var found := Slot(o.request);
      if found.None? { return false; }
      if found.value != {} {
        Dispute(key, part, o.(status := Conflict));
        return false;
      }
      ok := Check(false);
      if ok { ok := Create(key, part); }
    }

    lemma DeletedConsistent(settled: map<string, Receipt>, key: string, part: Part, o: Object, before: set<Entry>)
      requires Shaped(kit, Durable().(receipts := settled))
      requires key in settled && Holds(settled[key], part) && settled[key].retiring
      requires Settled(settled) && Accounts(settled, before, kernel.foreign)
      requires receipts == Update(settled, key, part, o)
      requires o == Get(settled[key], part).(status := AbsentConfirmed, deleteAck := true)
      requires
        var gone := Get(settled[key], part).observed;
        kernel.mine <= before && gone !in kernel.mine && (!kernel.foreign ==> kernel.mine == before - {gone})
      ensures Consistent()
    {
      SettledUpdate(settled, key, part, o);
      DeletedAccounts(settled, key, part, o, before, kernel.mine, kernel.foreign);
    }

    /** Absence check and acknowledgement of an acknowledged kernel delete. */
    method FinishDelete(key: string, part: Part, sequence: nat, ghost settled: map<string, Receipt>,
                        ghost before: set<Entry>)
      returns (ok: bool)
      requires Valid() && journal.record.pending.Some?
      requires key in settled && Holds(settled[key], part) && settled[key].retiring
      requires Shaped(kit, Durable().(receipts := settled, quarantined := false))
      requires Settled(settled) && Accounts(settled, before, kernel.foreign)
      requires receipts == Update(settled, key, part, Get(settled[key], part).(deleteAck := true))
      requires
        var gone := Get(settled[key], part).observed;
        kernel.mine <= before && gone !in kernel.mine && (!kernel.foreign ==> kernel.mine == before - {gone})
      modifies this`blocked, this`receipts, journal`record, journal`blocked, journal.disk, kernel
      ensures Valid() && key in receipts && Has(receipts[key], part)
      ensures ok ==> Live() && Get(receipts[key], part).status == AbsentConfirmed
      ensures !kernel.foreign ==> kernel.others == old(kernel.others)
      ensures receipts == Update(settled, key, part, Get(receipts[key], part))
      ensures Get(receipts[key], part).request == Get(settled[key], part).request
    {
      ghost var answered := Get(receipts[key], part);
      ok := Confirm(key, part, true);
      var done := Get(receipts[key], part);
      UpdateTwice(settled, key, part, answered, done);
      if ok {
        DeletedConsistent(settled, key, part, done, before);
        ok := Acknowledge(sequence);
      } else {
        LeaveUnknown(key, part, settled);
      }
    }

    /** The kernel side of a deletion whose intent is durable; only the recorded entry is named. */
    method DeleteEntry(key: string, part: Part, sequence: nat, ghost before: set<Entry>) returns (ok: bool)
      requires Valid() && journal.record.pending.Some? && !journal.blocked && !blocked
      requires key in receipts && Holds(receipts[key], part) && receipts[key].retiring
      requires Settled(receipts) && Accounts(receipts, before, kernel.foreign)
      requires kernel.mine <= before && (!kernel.foreign ==> kernel.mine == before)
      modifies this`blocked, this`receipts, journal`record, journal`blocked, journal.disk, kernel
      ensures Valid() && key in receipts && Has(receipts[key], part)
      ensures ok ==> Live() && Get(receipts[key], part).status == AbsentConfirmed
      ensures !kernel.foreign ==> kernel.others == old(kernel.others)
      ensures receipts == Update(old(receipts), key, part, Get(receipts[key], part))
      ensures Get(receipts[key], part).request == old(Get(receipts[key], part).request)
    {
      ghost var settled := receipts;
      var o := Get(receipts[key], part);
      HeldMembers(settled, o.observed);
      assert HeldBy(settled, key, part, o.observed);
      ghost var ours, theirs := kernel.mine, kernel.others;
      var outcome, gone := kernel.Delete(o.observed);
      if !kernel.foreign { AloneShrinks(ours, theirs, kernel.mine, kernel.others); }
      var answered := o.(deleteAck := outcome.Done?, status := if outcome.Unknown? then OutcomeUnknown else o.status);
      Note(key, part, answered);
      if !outcome.Done? {
        Block();
        return false;
      }
      ok := FinishDelete(key, part, sequence, settled, before);
    }

    /** Deletes a confirmed object: durable intent, readback of exactly our entry, delete, absence, ack. */
    method Remove(key: string, part: Part) returns (ok: bool)
      requires Valid() && !blocked && key in receipts && Holds(receipts[key], part) && receipts[key].retiring
      modifies this`blocked, this`receipts, journal`record, journal`blocked, journal.disk, kernel
      ensures Valid() && key in receipts && Has(receipts[key], part)
      ensures ok ==> Live() && Get(receipts[key], part).status == AbsentConfirmed
      ensures !kernel.foreign ==> kernel.others == old(kernel.others)
      ensures receipts == Update(old(receipts), key, part, Get(receipts[key], part))
      ensures Get(receipts[key], part).request == old(Get(receipts[key], part).request)
    {
      ghost var before := kernel.mine;
      var o := Get(receipts[key], part);
      assert receipts == Update(receipts, key, part, o);
      var sequence := journal.Begin("netlink-delete", Mutation(Durable(), o));
      if sequence.None? {
        Block();
        return false;
      }
      ok := Confirm(key, part, false);
      if ok {
        assert receipts == old(receipts);
        ok := DeleteEntry(key, part, sequence.value, before);
      }
    }

    /** An object that was never made is given up once its slot is seen empty. */
    method ReleaseUnmade(key: string, part: Part) returns (ok: bool)
      requires Valid() && key in receipts && Has(receipts[key], part) && receipts[key].retiring
      requires Get(receipts[key], part).status == Failed || Get(receipts[key], part).status == Unattempted
      modifies this`blocked, this`receipts, journal`record, journal`blocked, journal.disk, kernel
      ensures Valid() && key in receipts && Has(receipts[key], part)
      ensures ok ==> Get(receipts[key], part).status == AbsentConfirmed && (blocked ==> old(blocked))
      ensures !kernel.foreign ==> kernel.others == old(kernel.others)
      ensures receipts == Update(old(receipts), key, part, Get(receipts[key], part))
      ensures Get(receipts[key], part).request == old(Get(receipts[key], part).request)
    {
      var o := Get(receipts[key], part);
      assert receipts == Update(receipts, key, part, o);
      var found := Slot(o.request);
      if found.None? { return false; }
      if found.value != {} {
        Block();
        return false;
      }
      GiveUp(key, part, o.(status := AbsentConfirmed));
      return true;
    }

    /** Makes sure a retiring object is gone, deleting it only if we hold its confirmed receipt. */
    method WithdrawObject(key: string, part: Part) returns (ok: bool)
      requires Valid() && key in receipts && Has(receipts[key], part) && receipts[key].retiring
      modifies this`blocked, this`receipts, journal`record, journal`blocked, journal.disk, kernel
      ensures Valid() && key in receipts && Has(receipts[key], part)
      ensures ok ==> Get(receipts[key], part).status == AbsentConfirmed && (blocked ==> old(blocked))
      ensures !kernel.foreign ==> kernel.others == old(kernel.others)
      ensures receipts == Update(old(receipts), key, part, Get(receipts[key], part))
      ensures Get(receipts[key], part).request == old(Get(receipts[key], part).request)
    {
      var o := Get(receipts[key], part);
      assert receipts == Update(receipts, key, part, o);
      if o.status == AbsentConfirmed { return true; }
      if o.status == Failed || o.status == Unattempted {
        ok := ReleaseUnmade(key, part);
        return;
      }
      if o.status != Confirmed || !o.ack { return false; }
      ok := Confirm(key, part, false);
      if ok {
        assert receipts == old(receipts);
        ok := Check(false);
      }
      if ok { ok := Remove(key, part); }
    }

    // -------------------------------------------------------------- one route

    method FindNetwork(route: Route) returns (n: Option<Network>)
      ensures n.Some? ==> n.value in networks && Serves(n.value, route)
      ensures n.None? ==> forall m | m in networks :: !Serves(m, route)
    {
      for i := 0 to |networks|
        invariant forall j | 0 <= j < i :: !Serves(networks[j], route)
      {
        if Serves(networks[i], route) { return Some(networks[i]); }
      }
      return None;
    }

    method Admit(route: Route, cancelled: bool) returns (n: Option<Network>)
      requires Valid()
      modifies this`blocked, journal`record, journal`blocked, journal.disk
      ensures Valid()
      ensures cancelled ==> n.None? && blocked == old(blocked) && journal.blocked == old(journal.blocked)
      ensures cancelled ==> journal.record == old(journal.record)
      ensures n.Some? ==> !blocked && !journal.blocked && n.value in networks && Serves(n.value, route)
      ensures n.Some? ==> route.incarnation != 0 && route.generation != 0
      ensures n.Some? ==> route.endpoint.validationState == "validated" && route.endpoint.routes != []
    {
      n := None;
      var ok := Check(cancelled);
      if ok && route.incarnation != 0 && route.generation != 0 && route.endpoint.validationState == "validated"
         && route.endpoint.routes != [] {
        n := FindNetwork(route);
      }
    }

    method Insert(n: Network, route: Route)
      requires Valid() && n in networks && Serves(n, route) && route.endpoint.key !in receipts
      requires route.endpoint.key == kit.hash(route.endpoint.networkID, route.endpoint.mac, route.endpoint.ip)
      requires route.endpoint.validationState == "validated" && route.endpoint.routes != []
      requires route.incarnation != 0 && 0 < route.generation <= snapshot.generation
      requires RouteVacant(kit, Durable(), route)
      modifies this`receipts, this`latest
      ensures Valid() && n.bridge in devices && n.vxlan in devices
      ensures receipts == old(receipts)[route.endpoint.key := NewReceipt(kit, old(Durable()), n, route)]
      ensures latest == old(latest)[route.endpoint.key := route.incarnation]
    {
      var key, r := route.endpoint.key, NewReceipt(kit, Durable(), n, route);
      ShapedInsert(kit, Durable(), n, route);
      if Live() { SettledReplace(receipts, key, r); }
      HeldSameObjects(receipts, key, r);
      receipts, latest := receipts[key := r], latest[key := route.incarnation];
    }

    method Stage(key: string, status: RouteStatus, retiring: bool)
      requires Valid() && key in receipts && (receipts[key].retiring ==> retiring)
      requires Staged(receipts[key].(status := status, retiring := retiring))
      modifies this`receipts
      ensures Valid() && receipts == old(receipts)[key := old(receipts)[key].(status := status, retiring := retiring)]
    {
      var r := receipts[key].(status := status, retiring := retiring);
      ShapedStage(kit, Durable(), key, status, retiring);
      if Live() {
        assert SettledAt(receipts, key);
        SettledReplace(receipts, key, r);
      }
      HeldSameObjects(receipts, key, r);
      receipts := receipts[key := r];
    }

    /** Applies both objects of a receipt and records it as applied. */
    method ApplyObjects(key: string) returns (ok: bool)
      requires Valid() && key in receipts && !receipts[key].retiring
      modifies this`blocked, this`receipts, journal`record, journal`blocked, journal.disk, kernel
      ensures !kernel.foreign ==> kernel.others == old(kernel.others)
      ensures Valid() && key in receipts && SameClaim(receipts[key], old(receipts)[key]) && !receipts[key].retiring
      ensures receipts == old(receipts)[key := receipts[key]]
      ensures ok ==> Live() && Complete(receipts[key])
    {
      ok := ApplyBoth(key);
      if ok { ok := MarkApplied(key); }
    }

    method ApplyBoth(key: string) returns (ok: bool)
      requires Valid() && key in receipts && !receipts[key].retiring
      modifies this`blocked, this`receipts, journal`record, journal`blocked, journal.disk, kernel
      ensures !kernel.foreign ==> kernel.others == old(kernel.others)
      ensures Valid() && key in receipts && SameClaim(receipts[key], old(receipts)[key]) && !receipts[key].retiring
      ensures receipts == old(receipts)[key := receipts[key]]
      ensures ok ==> !blocked && !journal.blocked && Complete(receipts[key].(status := Applied))
    {
      ok := ApplyObject(key, FDB);
      if !ok { return; }
      if receipts[key].neighbor.Some? { ok := ApplyObject(key, Neighbor); }
    }

    method MarkApplied(key: string) returns (ok: bool)
      requires Valid() && !blocked && !journal.blocked && key in receipts && !receipts[key].retiring
      requires Staged(receipts[key].(status := Applied))
      modifies this`blocked, this`receipts, journal`record, journal`blocked, journal.disk
      ensures Valid() && receipts == old(receipts)[key := old(receipts)[key].(status := Applied)]
      ensures ok ==> Live()
    {
      Stage(key, Applied, false);
      ok := Checkpoint();
    }

    /** Applies a route under a receipt of its own incarnation. */
    method Apply(route: Route, cancelled: bool) returns (ok: bool)
      requires Valid() && RouteVacant(kit, Durable(), route)
      requires route.endpoint.key == kit.hash(route.endpoint.networkID, route.endpoint.mac, route.endpoint.ip)
      requires route.generation <= snapshot.generation
      requires route.endpoint.key in receipts ==> !receipts[route.endpoint.key].retiring
      modifies this`blocked, this`receipts, this`latest, journal`record, journal`blocked, journal.disk, kernel
      ensures Valid() && (!kernel.foreign ==> kernel.others == old(kernel.others))
      ensures var key := route.endpoint.key;
        && receipts - {key} == old(receipts) - {key}
        && (key in old(receipts) ==> key in receipts && SameClaim(receipts[key], old(receipts)[key]) && latest == old(latest))
        && (key !in old(receipts) && key in receipts ==>
              Belongs(receipts[key], owner, route) && Serves(receipts[key].network, route)
              && latest == old(latest)[key := route.incarnation])
        && (key !in receipts ==> latest == old(latest))
        && (key in receipts ==> !receipts[key].retiring)
        && (ok ==> Live() && key in receipts && Belongs(receipts[key], owner, route) && Complete(receipts[key]))
      ensures cancelled ==> !ok && receipts == old(receipts) && blocked == old(blocked)
      ensures cancelled ==> journal.record == old(journal.record) && journal.blocked == old(journal.blocked)
    {
      var key := route.endpoint.key;
      var n := Admit(route, cancelled);
      if n.None? { return false; }
      if key in receipts {
        if !Belongs(receipts[key], owner, route) { return false; }
      } else {
        if route.incarnation <= Latest(Durable(), key) { return false; }
        Insert(n.value, route);
      }
      ok := Proceed(key);
    }

    method Proceed(key: string) returns (ok: bool)
      requires Valid() && key in receipts && !receipts[key].retiring
      modifies this`blocked, this`receipts, journal`record, journal`blocked, journal.disk, kernel
      ensures Valid() && (!kernel.foreign ==> kernel.others == old(kernel.others))
      ensures key in receipts && SameClaim(receipts[key], old(receipts)[key]) && !receipts[key].retiring
      ensures receipts - {key} == old(receipts) - {key}
      ensures ok ==> Live() && Complete(receipts[key])
    {
      Stage(key, PartiallyApplied, false);
      ok := ApplyObjects(key);
    }

    /** The receipt of a fully withdrawn route disappears; its incarnation stays known. */
    method Forget(key: string)
      requires Valid() && key in receipts && !Holds(receipts[key], FDB) && !Holds(receipts[key], Neighbor)
      modifies this`receipts
      ensures Valid() && receipts == old(receipts) - {key}
    {
      ShapedRemoval(kit, Durable(), key);
      if Live() {
        assert SettledAt(receipts, key);
        SettledReplace(receipts, key, receipts[key]);
      }
      HeldAfterRemoval(receipts, key);
      receipts := receipts - {key};
    }

    method WithdrawObjects(key: string) returns (ok: bool)
      requires Valid() && key in receipts && receipts[key].retiring
      modifies this`blocked, this`receipts, journal`record, journal`blocked, journal.disk, kernel
      ensures Valid() && (!kernel.foreign ==> kernel.others == old(kernel.others))
      ensures key in receipts && SameClaim(receipts[key], old(receipts)[key]) && receipts[key].retiring
      ensures receipts == old(receipts)[key := receipts[key]]
      ensures ok ==> !Holds(receipts[key], FDB) && !Holds(receipts[key], Neighbor) && (blocked ==> old(blocked))
    {
      if receipts[key].neighbor.Some? {
        ok := WithdrawObject(key, Neighbor);
        if !ok { return; }
      }
      ok := WithdrawObject(key, FDB);
    }

    /** Retires a receipt: the intention to withdraw is durable before the first deletion. */
    method Retire(key: string) returns (ok: bool)
      requires Valid() && key in receipts
      modifies this`blocked, this`receipts, journal`record, journal`blocked, journal.disk, kernel
      ensures Valid() && (!kernel.foreign ==> kernel.others == old(kernel.others))
      ensures receipts - {key} == old(receipts) - {key}
      ensures key in receipts ==> SameClaim(receipts[key], old(receipts)[key])
      ensures ok ==> key !in receipts && !journal.blocked && journal.record.pending.None? && (blocked ==> old(blocked))
    {
      Stage(key, PartiallyWithdrawn, true);
      ok := Checkpoint();
      if ok { ok := Dismantle(key); }
    }

    /** Deletes the objects of a retired receipt, then the receipt. */
    method Dismantle(key: string) returns (ok: bool)
      requires Valid() && key in receipts && receipts[key].retiring
      modifies this`blocked, this`receipts, journal`record, journal`blocked, journal.disk, kernel
      ensures Valid() && (!kernel.foreign ==> kernel.others == old(kernel.others))
      ensures receipts - {key} == old(receipts) - {key}
      ensures key in receipts ==> SameClaim(receipts[key], old(receipts)[key])
      ensures ok ==> key !in receipts && !journal.blocked && journal.record.pending.None? && (blocked ==> old(blocked))
    {
      ok := WithdrawObjects(key);
      if ok { ok := Finish(key); }
    }

    method Finish(key: string) returns (ok: bool)
      requires Valid() && key in receipts && !Holds(receipts[key], FDB) && !Holds(receipts[key], Neighbor)
      modifies this`blocked, this`receipts, journal`record, journal`blocked, journal.disk
      ensures Valid() && receipts == old(receipts) - {key}
      ensures ok ==> !journal.blocked && journal.record.pending.None? && (blocked ==> old(blocked))
    {
      Forget(key);
      ok := Checkpoint();
    }

    /** Withdraws a route only under its own current receipt. */
    method Withdraw(route: Route, cancelled: bool) returns (ok: bool)
      requires Valid()
      modifies this`blocked, this`receipts, journal`record, journal`blocked, journal.disk, kernel
      ensures Valid() && (!kernel.foreign ==> kernel.others == old(kernel.others))
      ensures var key := route.endpoint.key;
        && receipts - {key} == old(receipts) - {key}
        && (key in receipts ==> key in old(receipts) && SameClaim(receipts[key], old(receipts)[key]))
        && (key !in old(receipts) ==> !ok)
        && (ok ==> key !in receipts && Belongs(old(receipts)[key], owner, route) && Live())
    {
      var key := route.endpoint.key;
      var n := Admit(route, cancelled);
      if n.None? { return false; }
      if key !in receipts || !Belongs(receipts[key], owner, route) || Latest(Durable(), key) != route.incarnation {
        return false;
      }
      ok := Retire(key);
    }

    method Adopt(next: Snapshot)
      requires Valid() && snapshot.generation <= next.generation && Numbered(next)
      modifies this`snapshot
      ensures Valid() && snapshot == next
    {
      ghost var st := Durable();
      forall k ensures ShapedAt(kit, st.(snapshot := next), k) { assert ShapedAt(kit, st, k); }
      snapshot := next;
    }

    // -------------------------------------------------------------- recovery

    /** Compares one recovered object with its slot. An empty slot gives the object up; anything
        but the recorded entry alone in its slot quarantines the backend. */
    method RecoverObject(key: string, part: Part) returns (ok: bool)
      requires Valid() && key in receipts && Has(receipts[key], part)
      modifies this`blocked, this`receipts, journal`record, journal`blocked, journal.disk, kernel
      ensures Valid() && key in receipts && SameClaim(receipts[key], old(receipts)[key])
      ensures receipts == old(receipts)[key := receipts[key]]
      ensures forall p | p != part :: SameObject(receipts[key], old(receipts)[key], p)
      ensures !kernel.foreign ==> kernel.mine == old(kernel.mine) && kernel.others == old(kernel.others)
      ensures ok ==> !blocked && AsRecorded(kernel.Visible(), receipts[key], part)
    {
      var o, r := Get(receipts[key], part), receipts[key];
      var found := Slot(o.request);
      if found.None? { return false; }
      if o.status == Confirmed && found.value == {o.observed} { return true; }
      if found.value != {} {
        Block();
        Quarantine();
        return false;
      }
      var given := if r.retiring then o.(status := AbsentConfirmed)
                   else Object(o.request, NO_ENTRY, Unattempted, false, false);
      GiveUp(key, part, given);
      if !r.retiring { Stage(key, PartiallyApplied, false); }
      return true;
    }

    method RecoverReceipt(key: string) returns (ok: bool)
      requires Valid() && key in receipts
      modifies this`blocked, this`receipts, journal`record, journal`blocked, journal.disk, kernel
      ensures Valid() && key in receipts && SameClaim(receipts[key], old(receipts)[key])
      ensures receipts == old(receipts)[key := receipts[key]]
      ensures !kernel.foreign ==> kernel.mine == old(kernel.mine) && kernel.others == old(kernel.others)
      ensures ok ==> !blocked
      ensures ok && !kernel.foreign ==> forall p :: AsRecorded(kernel.Visible(), receipts[key], p)
    {
      ok := RecoverObject(key, FDB);
      if !ok { return; }
      if receipts[key].neighbor.Some? {
        ghost var r := receipts[key];
        ok := RecoverObject(key, Neighbor);
        assert SameObject(receipts[key], r, FDB);
      }
      forall p | ok && !kernel.foreign ensures AsRecorded(kernel.Visible(), receipts[key], p) {
        assert p == FDB || p == Neighbor;
      }
    }

    method RecoverAll() returns (ok: bool)
      requires Valid() && !blocked
      modifies this`blocked, this`receipts, journal`record, journal`blocked, journal.disk, kernel
      ensures Valid() && SameClaims(receipts, old(receipts))
      ensures !kernel.foreign ==> kernel.mine == old(kernel.mine) && kernel.others == old(kernel.others)
      ensures ok ==> !blocked
      ensures ok && !kernel.foreign ==> AllAsRecorded(kernel.Visible(), receipts, receipts.Keys)
    {
      var todo := receipts.Keys;
      while todo != {}
        invariant Valid() && !blocked && SameClaims(receipts, old(receipts)) && todo <= receipts.Keys
        invariant !kernel.foreign ==> kernel.mine == old(kernel.mine) && kernel.others == old(kernel.others)
        invariant !kernel.foreign ==> AllAsRecorded(kernel.Visible(), receipts, receipts.Keys - todo)
        decreases |todo|
      {
        var key :| key in todo;
        ghost var before := receipts;
        ok := RecoverReceipt(key);
        SameClaimsExtend(before, old(receipts), key, receipts[key]);
        if !ok { return; }
        if !kernel.foreign { RecordedExtends(kernel.Visible(), before, before.Keys - todo, key, receipts[key]); }
        assert receipts.Keys - (todo - {key}) == before.Keys - todo + {key};
        todo := todo - {key};
      }
      assert receipts.Keys - todo == receipts.Keys;
      return true;
    }

    /** Nothing recovered is trusted before every slot agrees with its receipt. */
    method VerifyRecovered() returns (ok: bool)
      requires Valid() && !blocked
      modifies this`blocked, this`receipts, journal`record, journal`blocked, journal.disk, kernel
      ensures Valid() && SameClaims(receipts, old(receipts))
      ensures !kernel.foreign ==> kernel.mine == old(kernel.mine) && kernel.others == old(kernel.others)
      ensures ok ==> Live()
      ensures ok && !kernel.foreign ==> AllAsRecorded(kernel.Visible(), receipts, receipts.Keys)
    {
      ok := ValidateReceipts(kit, Durable());
      if ok { ok := RecoverAll(); }
      if ok { ok := Checkpoint(); }
    }

    predicate HasConfirmed(e: Entry)
      reads this
    {
      exists key | key in receipts ::
        || (Holds(receipts[key], FDB) && receipts[key].fdb.ack && receipts[key].fdb.observed == e)
        || (Holds(receipts[key], Neighbor) && receipts[key].neighbor.value.ack && receipts[key].neighbor.value.observed == e)
    }

    /** Startup never adopts: every remote-looking entry in a managed table must be claimed. */
    method Observe(ifindex: int, family: Family) returns (ok: bool)
      requires Valid()
      modifies this`blocked, journal`record, journal`blocked, journal.disk, kernel
      ensures Valid() && (old(blocked) ==> blocked)
      ensures !kernel.foreign ==> kernel.mine == old(kernel.mine) && kernel.others == old(kernel.others)
      ensures ok ==> blocked == old(blocked) && journal.record == old(journal.record) && journal.blocked == old(journal.blocked)
      ensures ok ==> forall e | e in kernel.Visible() && e.ifindex == ifindex && e.family == family && Remotely(e) ::
                       e in Held(receipts)
    {
      var entries := kernel.List(ifindex, family);
      if entries.None? { return false; }
      if exists e | e in entries.value :: LooksRemote(e) && !HasConfirmed(e) {
        Block();
        Quarantine();
        return false;
      }
      forall e | e in kernel.Visible() && e.ifindex == ifindex && e.family == family && Remotely(e)
        ensures e in Held(receipts)
      {
        assert e in entries.value && HasConfirmed(e);
      }
      return true;
    }
  }
}

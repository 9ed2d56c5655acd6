/** The node agent's CNI continuity: ADD, DEL, verification, recovery and the export gate. */
module CNIContinuity {
  import opened Basics
  import opened OwnershipJournal
  import opened Endpoints
  import opened CNIAcks

  /** A call to the route applier. An Add carries the moment it was made in: the last record on disk,
      the pass and the endpoint records. */
  datatype Sent = AddSent(ep: LocalEndpoint, at: nat, pass: nat, store: map<string, Spec>) | DeleteSent(uuid: string)

  datatype AddResult = AddRefused | AddConflict | Replayed | Created

  datatype DelResult = DelRefused | AlreadyAbsent | StaleOperation | Removed

  const UNOBSERVED := Receipt("unobserved", "unobserved", 0, "unobserved")
  const NETLINK_PREFIX := "ovn-netlink/"

  ghost predicate StoredAt(store: map<string, Spec>, acks: Acks, key: string)
  {
    key in store ==>
      key in acks && (acks[key].stage == Active || acks[key].stage == PendingCreation) && store[key] == acks[key].spec
  }

  /** Every stored record belongs to an active or pending acknowledgement. */
  ghost predicate StoreOk(store: map<string, Spec>, acks: Acks)
  {
    forall key :: StoredAt(store, acks, key)
  }

  lemma StoreUpdate(store: map<string, Spec>, acks: Acks, key: string, a: ACK)
    requires StoreOk(store, acks)
    ensures StoreOk(store - {key}, acks[key := a])
    ensures a.stage == Active || a.stage == PendingCreation ==> StoreOk(store[key := a.spec], acks[key := a])
    ensures StoreOk(store - {key}, acks)
  {
    var less, more, next := store - {key}, store[key := a.spec], acks[key := a];
    forall k
      ensures StoredAt(less, next, k) && StoredAt(less, acks, k)
      ensures a.stage == Active || a.stage == PendingCreation ==> StoredAt(more, next, k)
    {
      assert StoredAt(store, acks, k);
    }
  }

  ghost predicate VerifiedAt(was: Acks, acks: Acks, todo: set<string>, key: string)
  {
    && (key in todo ==> key in was) && (key in acks <==> key in was)
    && (key in was ==>
          if key in todo || was[key].stage != PendingCreation then acks[key] == was[key] else Decides(was[key], acks[key]))
  }

  lemma VerifiedStep(was: Acks, before: Acks, acks: Acks, todo: set<string>, key: string)
    requires forall k :: VerifiedAt(was, before, todo, k)
    requires key in todo && key in before && key in acks && acks == before[key := acks[key]]
    requires if before[key].stage == PendingCreation then Decides(before[key], acks[key]) else acks[key] == before[key]
    ensures forall k :: VerifiedAt(was, acks, todo - {key}, k)
  {
    var rest := todo - {key};
    assert VerifiedAt(was, before, todo, key);
    forall k ensures VerifiedAt(was, acks, rest, k) { assert VerifiedAt(was, before, todo, k); }
  }

  /** An endpoint activated since some pass has a verdict from after it on its pending form. */
  ghost predicate ActivatedAt(was: Acks, acks: Acks, verdicts: set<Verdict>, pass: nat, key: string)
  {
    key in was && key in acks && was[key].stage == PendingCreation && acks[key].stage == Active ==>
      exists v :: v in verdicts && v.ack == was[key] && pass < v.pass
  }

  lemma ActivatedStep(was: Acks, before: Acks, acks: Acks, verdicts: set<Verdict>, pass: nat, key: string)
    requires forall k :: ActivatedAt(was, before, verdicts, pass, k)
    requires key in before && key in acks && acks == before[key := acks[key]]
    requires key in was ==> before[key] == was[key]
    requires ActivatedAt(before, acks, verdicts, pass, key)
    ensures forall k :: ActivatedAt(was, acks, verdicts, pass, k)
  {
    forall k ensures ActivatedAt(was, acks, verdicts, pass, k) { assert ActivatedAt(was, before, verdicts, pass, k); }
  }

  lemma ActivatedGrows(was: Acks, acks: Acks, verdicts: set<Verdict>, more: set<Verdict>, pass: nat)
    requires verdicts <= more && forall k :: ActivatedAt(was, acks, verdicts, pass, k)
    ensures forall k :: ActivatedAt(was, acks, more, pass, k)
  {
    forall k ensures ActivatedAt(was, acks, more, pass, k) { assert ActivatedAt(was, acks, verdicts, pass, k); }
  }

  /** A record that is gone belonged to an endpoint seen deleted in this pass. */
  ghost predicate DroppedAt(was: map<string, Spec>, store: map<string, Spec>, acks: Acks, seen: Log, key: string)
  {
    key in was && key !in store ==> key in acks && (seen.pass, acks[key]) in seen.gone
  }

  lemma DroppedStep(was: map<string, Spec>, before: map<string, Spec>, store: map<string, Spec>, acks: Acks,
                    earlier: Log, seen: Log, key: string)
    requires forall k :: DroppedAt(was, before, acks, earlier, k)
    requires Adds(earlier, seen) && key in acks
    requires store == before || (store == before - {key} && (seen.pass, acks[key]) in seen.gone)
    ensures forall k :: DroppedAt(was, store, acks, seen, k)
  {
    forall k ensures DroppedAt(was, store, acks, seen, k) { assert DroppedAt(was, before, acks, earlier, k); }
  }

  /** An endpoint that was looked at is active or deleted, and one with a record was seen alive and matching. */
  ghost predicate PassedAt(acks: Acks, store: map<string, Spec>, seen: Log, todo: set<string>, key: string)
  {
    key in acks && key !in todo ==>
      && (acks[key].stage == Active || acks[key].stage == Deleted)
      && (key in store ==> (seen.pass, acks[key]) in seen.alive && (seen.pass, acks[key]) in seen.matched)
  }

  lemma PassedStep(acks: Acks, before: map<string, Spec>, store: map<string, Spec>, earlier: Log, seen: Log,
                   todo: set<string>, key: string)
    requires forall k :: PassedAt(acks, before, earlier, todo, k)
    requires Adds(earlier, seen) && store.Keys <= before.Keys && PassedAt(acks, store, seen, {}, key)
    ensures forall k :: PassedAt(acks, store, seen, todo - {key}, k)
  {
    var rest := todo - {key};
    forall k ensures PassedAt(acks, store, seen, rest, k) { assert PassedAt(acks, before, earlier, todo, k); }
  }

  /** An active acknowledgement of the endpoint's network names the endpoint, by its ID or by the UUID of its
      port. */
  ghost predicate Names(a: ACK, ep: LocalEndpoint)
  {
    && a.stage == Active && a.spec.networkID == ep.networkID
    && (a.spec.endpointID == ep.endpointID || "ovn-netlink/" + a.receipt.lspUUID == ep.endpointID)
  }

  /** The acknowledgement names the endpoint, by its ID only in the same incarnation, and has its MAC; the
      endpoint is MAC-only without IPs, or its IPs are the acknowledged addresses one by one. */
  ghost predicate Vouches(kit: Kit, a: ACK, ep: LocalEndpoint)
  {
    && Names(a, ep) && (a.spec.endpointID == ep.endpointID ==> a.spec.incarnation == ep.incarnation)
    && kit.sameMAC(ep.mac, a.spec.mac)
    && (ep.macOnly ==> |ep.ipAddresses| == 0)
    && (!ep.macOnly ==> |ep.ipAddresses| == |a.spec.ips|)
    && forall i | 0 <= i < |ep.ipAddresses| && i < |a.spec.ips| :: kit.address(a.spec.ips[i]) == Some(ep.ipAddresses[i])
  }

  predicate Selects(acks: Acks, key: string, ep: LocalEndpoint)
  {
    && key in acks && acks[key].stage == Active && ep.networkID == acks[key].spec.networkID
    && (ep.endpointID == acks[key].spec.endpointID || ep.endpointID == NETLINK_PREFIX + acks[key].receipt.lspUUID)
  }

  predicate SameAddresses(kit: Kit, spec: Spec, ep: LocalEndpoint)
  {
    && kit.sameMAC(ep.mac, spec.mac)
    && if ep.macOnly then ep.ipAddresses == []
       else |ep.ipAddresses| == |spec.ips|
            && forall i | 0 <= i < |spec.ips| :: kit.address(spec.ips[i]) == Some(ep.ipAddresses[i])
  }

  predicate Backs(kit: Kit, acks: Acks, store: map<string, Spec>, key: string, ep: LocalEndpoint)
  {
    && Selects(acks, key, ep) && key in store
    && (ep.endpointID == acks[key].spec.endpointID ==> ep.incarnation == acks[key].spec.incarnation)
    && SameAddresses(kit, acks[key].spec, ep)
  }

  lemma BacksIff(kit: Kit, acks: Acks, store: map<string, Spec>, key: string, ep: LocalEndpoint)
    ensures Selects(acks, key, ep) <==> key in acks && Names(acks[key], ep)
    ensures Backs(kit, acks, store, key, ep) <==> key in acks && key in store && Vouches(kit, acks[key], ep)
  {
  }

  /** The applier behind the gate, with everything that was ever asked of it. */
  class Applier {
    ghost var log: seq<Sent>

    constructor ()
      ensures log == []
    {
      log := [];
    }

    method Add(ep: LocalEndpoint, ghost moment: Sent) returns (uuid: Option<string>)
      requires moment.AddSent? && moment.ep == ep
      modifies this
      ensures log == old(log) + [moment]
    {
      uuid := *;
      log := log + [moment];
    }

    method Delete(uuid: string) returns (ok: bool)
      modifies this
      ensures log == old(log) + [DeleteSent(uuid)]
    {
      ok := *;
      log := log + [DeleteSent(uuid)];
    }
  }

  /** What has been seen and written so far. */
  datatype Scene = Scene(seen: Log, history: seq<Record<Acks, ACK>>)

  ghost function SceneOf(world: World, disk: Disk<Acks, ACK>): Scene
    reads world, disk
  {
    Scene(world.seen, disk.history)
  }

  ghost predicate Follows(a: Scene, b: Scene)
  {
    Grows(a.seen, b.seen) && a.history <= b.history
  }

  ghost predicate SeenAt(scene: Scene, pass: nat, a: ACK)
  {
    (pass, a) in scene.seen.alive && (pass, a) in scene.seen.matched
  }

  /** At the moment of an Add nothing was pending on disk and every acknowledgement was active or
      deleted; an active one with a record stood behind the endpoint, seen alive and matching in that pass. */
  ghost predicate Gated(kit: Kit, scene: Scene, e: Sent)
  {
    e.AddSent? ==>
      && e.at < |scene.history| && scene.history[e.at].pending.None? && Settled(StateOf(scene.history[e.at]))
      && exists key :: Stands(kit, scene, StateOf(scene.history[e.at]), e, key)
  }

  ghost predicate Settled(acks: Acks)
  {
    forall key | key in acks :: acks[key].stage == Active || acks[key].stage == Deleted
  }

  ghost predicate Stands(kit: Kit, scene: Scene, acks: Acks, e: Sent, key: string)
    requires e.AddSent?
  {
    key in acks && key in e.store && Vouches(kit, acks[key], e.ep) && SeenAt(scene, e.pass, acks[key])
  }

  ghost predicate AllGated(kit: Kit, scene: Scene, log: seq<Sent>)
  {
    forall e | e in log :: Gated(kit, scene, e)
  }

  lemma GatedAppends(kit: Kit, scene: Scene, log: seq<Sent>, e: Sent)
    requires AllGated(kit, scene, log) && Gated(kit, scene, e)
    ensures AllGated(kit, scene, log + [e])
  {
  }

  lemma StaysGated(kit: Kit, a: Scene, b: Scene, log: seq<Sent>)
    requires AllGated(kit, a, log) && Follows(a, b)
    ensures AllGated(kit, b, log)
  {
    forall e | e in log ensures Gated(kit, b, e) {
      assert Gated(kit, a, e);
      if e.AddSent? {
        var key :| Stands(kit, a, StateOf(a.history[e.at]), e, key);
        assert Stands(kit, b, StateOf(b.history[e.at]), e, key);
      }
    }
  }

  class Server {
    const kit: Kit
    const world: World
    const journal: Journal<Acks, ACK>
    /** Whether a creation authority is configured. */
    const authority: bool
    var acks: Acks
    var store: map<string, Spec>
    var stopping: bool

    constructor (kit: Kit, world: World, journal: Journal<Acks, ACK>, authority: bool, acks: Acks, store: map<string, Spec>)
      ensures this.kit == kit && this.world == world && this.journal == journal && this.authority == authority
      ensures this.acks == acks && this.store == store && !stopping
    {
      this.kit, this.world, this.journal, this.authority := kit, world, journal, authority;
      this.acks, this.store, stopping := acks, store, false;
    }

    /** No outcome is uncertain. */
    ghost predicate Certain()
      reads journal
    {
      !journal.blocked && journal.record.pending.None?
    }

    ghost predicate Valid()
      reads this, journal, journal.disk, world
    {
      && journal.Valid() && SiteOk(kit, world, journal.disk)
      && (Certain() ==> acks == StateOf(journal.record) && StoreOk(store, acks))
    }

    ghost function Scene(): Scene
      reads world, journal, journal.disk
    {
      SceneOf(world, journal.disk)
    }

    ghost predicate Undisturbed(files: Files<Acks, ACK>)
      reads journal, journal.disk
    {
      journal.disk.files == files
    }

    /** The endpoint's resources were seen as acknowledged in the current pass. */
    ghost predicate MatchedAt(key: string)
      reads this, world
    {
      key in acks && (world.seen.pass, acks[key]) in world.seen.matched
    }

    /** The endpoint was seen alive and matching in the current pass. */
    ghost predicate LiveAt(key: string)
      reads this, world
    {
      MatchedAt(key) && (world.seen.pass, acks[key]) in world.seen.alive
    }

    /** Whenever this succeeds, memory is the durable state and every record is acknowledged. */
    method Ready() returns (ok: bool)
      requires Valid()
      modifies journal`blocked
      ensures Valid()
      ensures ok ==> Certain() && old(Certain()) && journal.disk.files == Stored(journal.record)
      ensures ok ==> acks == StateOf(journal.record) && StoreOk(store, acks)
    {
      var s := journal.Snapshot();
      ok := s.Snap? && s.pending.None?;
    }

    method BeginIntent(operation: string, p: ACK) returns (sequence: Option<nat>)
      requires Valid() && Certain() && IntentOk(acks, operation, p)
      requires operation == IDENTITY && p.stage == Active ==>
        Judged(world.seen.verdicts, |journal.disk.history| - 1, acks[p.key])
      requires operation == ADD ==> Cleared(world.seen.absences, |journal.disk.history| - 1, p.key, p.spec)
      modifies journal, journal.disk
      ensures Valid() && old(journal.disk.history) <= journal.disk.history
      ensures sequence.Some? ==> !journal.blocked && StateOf(journal.record) == acks
      ensures sequence.Some? ==> journal.record.pending == Some(Intent(sequence.value, operation, p))
      ensures sequence.Some? ==> |journal.disk.history| == old(|journal.disk.history|) + 1
    {
      ghost var before, was := journal.record, journal.disk.history;
      ghost var tried := Begun(before, operation, p);
      sequence := journal.Begin(operation, p);
      if journal.disk.history != was {
        assert LegalAt(journal.disk.history, |was| - 1);
        HistoryExtends(kit, was, tried);
        JudgedExtends(world.seen.verdicts, was, tried);
        ClearedExtends(world.seen.absences, was, tried);
      }
    }

    /** Acknowledges the pending intent; memory must be brought in line by the caller. */
    method CommitState(sequence: nat, next: Acks) returns (ok: bool)
      requires Valid() && journal.record.pending.Some?
      requires AckOk(kit, StateOf(journal.record), journal.record.pending.value.operation,
                     journal.record.pending.value.payload, next)
      requires Removes(journal.record) ==>
        var p := journal.record.pending.value.payload;
        Cleared(world.seen.absences, |journal.disk.history| - 1, p.key, p.spec)
      modifies journal, journal.disk
      ensures journal.Valid() && SiteOk(kit, world, journal.disk) && old(journal.disk.history) <= journal.disk.history
      ensures ok ==> Certain() && StateOf(journal.record) == next
      ensures !ok ==> journal.record == old(journal.record)
    {
      ghost var before, was := journal.record, journal.disk.history;
      ghost var tried := Acknowledged(before, next);
      ok := journal.Commit(sequence, next);
      if journal.disk.history != was {
        HistoryExtends(kit, was, tried);
        JudgedExtends(world.seen.verdicts, was, tried);
        ClearedExtends(world.seen.absences, was, tried);
      }
    }

    // -------------------------------------------------------------- ADD

    method Observe(key: string, spec: Spec) returns (o: Observation)
      requires Valid()
      modifies world
      ensures Valid() && Adds(old(world.seen), world.seen)
      ensures o.Absent? ==>
        ResourcesAbsent(|journal.disk.history| - 1, world.seen.pass, key, spec, o.switchUUID) in world.seen.absences
    {
      o := world.Observe(key, spec, |journal.disk.history| - 1);
      ClearedGrows(old(world.seen).absences, world.seen.absences, journal.disk.history);
    }

    /** Sees resources and attachment of an endpoint absent, or None. */
    method SeeAbsent(key: string, spec: Spec) returns (switchUUID: Option<string>)
      requires Valid()
      modifies world
      ensures Valid() && Adds(old(world.seen), world.seen)
      ensures switchUUID.Some? ==> Cleared(world.seen.absences, |journal.disk.history| - 1, key, spec)
      ensures switchUUID.Some? ==>
        ClearedUnder(world.seen.absences, |journal.disk.history| - 1, key, spec, switchUUID.value)
    {
      ghost var at: nat := |journal.disk.history| - 1;
      var o := Observe(key, spec);
      if !o.Absent? { return None; }
      ghost var known := world.seen.absences;
      var absent := world.Attachment(key, at);
      ClearedGrows(known, world.seen.absences, journal.disk.history);
      if !absent { return None; }
      assert ClearedBy(world.seen.absences, at, key, spec, ResourcesAbsent(at, world.seen.pass, key, spec, o.switchUUID));
      return Some(o.switchUUID);
    }

    method Put(key: string, spec: Spec)
      modifies this`store
      ensures store == if key in old(store) then old(store) else old(store)[key := spec]
    {
      if key !in store { store := store[key := spec]; }
    }

    /** Admission by the authority, when there is one and the endpoint is not yet active. */
    method Admit(key: string) returns (ok: bool, admission: Option<Admission>)
      requires Valid()
      modifies world
      ensures Valid() && Adds(old(world.seen), world.seen)
      ensures admission.Some? ==> authority && AdmittedIn(world.seen.pass, key, admission.value.netns)
      ensures ok && (!authority || (key in acks && acks[key].stage != Deleted && acks[key].stage != PendingCreation)) ==>
        admission.None?
      ensures ok && authority && (key !in acks || acks[key].stage == Deleted || acks[key].stage == PendingCreation) ==>
        admission.Some?
    {
      if !authority || (key in acks && acks[key].stage != Deleted && acks[key].stage != PendingCreation) {
        return true, None;
      }
      admission := world.Admit(key);
      ok := admission.Some?;
    }

    /** The authority admitted this namespace for the endpoint in this pass. */
    ghost predicate AdmittedIn(pass: nat, key: string, netns: nat)
      reads world
    {
      (pass, key, netns) in world.seen.admissions
    }

    /** A repeated ADD of an endpoint that is already acknowledged. */
    method Replay(key: string, spec: Spec, admission: Option<Admission>) returns (r: AddResult)
      requires Valid() && key in acks && acks[key].stage != Deleted
      modifies this`store, world
      ensures Valid() && Adds(old(world.seen), world.seen)
      ensures (r == AddRefused || r == AddConflict || r == Replayed)
      ensures acks[key].stage == Quarantined ==> r == AddRefused
      ensures r == Replayed ==> acks[key].spec == spec && (acks[key].stage == Active || acks[key].stage == PendingCreation)
      ensures r == Replayed ==> key in store && (Certain() ==> store[key] == spec)
      ensures r == Replayed && acks[key].stage == PendingCreation ==>
        admission.Some? && admission.value.netns == acks[key].receipt.netns
      ensures r == Replayed ==> MatchedAt(key) && (acks[key].stage == Active ==> LiveAt(key))
    {
      var a := acks[key];
      if a.stage == Quarantined { return AddRefused; }
      if a.spec != spec { return AddConflict; }
      if a.stage == Active {
        var w := world.Workload(a);
        if w != Alive { return AddRefused; }
      } else if admission.None? || admission.value.netns != a.receipt.netns {
        return AddRefused;
      }
      var matched := world.Resources(a);
      if !matched { return AddRefused; }
      ghost var before := store;
      assert Certain() ==> StoredAt(before, acks, key);
      Put(key, spec);
      if Certain() {
        forall k ensures StoredAt(store, acks, k) { assert StoredAt(before, acks, k); }
      }
      return Replayed;
    }

    /** Creates the resources, reads them back and drafts the acknowledgement. */
    method BuildAck(key: string, spec: Spec, admission: Option<Admission>) returns (ack: Option<ACK>)
      requires Valid() && (admission.Some? <==> authority)
      modifies world
      ensures Valid() && Adds(old(world.seen), world.seen)
      ensures ack.Some? ==> ack.value.spec == spec.(rest := ack.value.spec.rest) && WellFormed(kit, key, ack.value)
      ensures ack.Some? ==> ack.value.key == key && ack.value.admission == admission
      ensures ack.Some? ==> ack.value.stage == if authority then PendingCreation else Active
      ensures ack.Some? ==> ack.value.verifiedAt == 0 && ack.value.reason == ""
    {
      var ensured: bool, rest: string := *, *;
      if !ensured { return None; }
      var created := spec.(rest := rest);
      var o := Observe(key, created);
      if !o.Present? { return None; }
      var draft := ACK(key, created, o.receipt, Active, None, 0, 0, 0, "");
      if authority {
        var now: nat :| 0 <= now;
        draft := draft.(stage := PendingCreation, admission := admission, createdAt := now, verifyBy := now + VERIFY_WINDOW);
        if admission.value.netns != o.receipt.netns { return None; }
      }
      ValidatesIff(kit, key, draft);
      ack := if Validates(kit, key, draft) then Some(draft) else None;
    }

    /** Sees the created resources as drafted, the Pod once more and the same admission. */
    method Confirm(ack: ACK, spec: Spec) returns (ok: bool)
      requires Valid()
      modifies world
      ensures Valid() && Adds(old(world.seen), world.seen)
      ensures ok ==> (world.seen.pass, ack) in world.seen.matched && (world.seen.pass, spec) in world.seen.pods
      ensures ok && ack.admission.Some? ==> AdmittedIn(world.seen.pass, ack.key, ack.admission.value.netns)
    {
      ok := world.Resources(ack);
      if !ok { return; }
      ok := world.Pod(spec);
      if !ok || ack.admission.None? { return; }
      var second := world.Admit(ack.key);
      ok := second.Some? && second.value.netns == ack.admission.value.netns;
    }

    /** The part of a fresh ADD after its intent is durable: create, read back, verify, acknowledge. */
    method FinishAdd(sequence: nat, key: string, spec: Spec, admission: Option<Admission>) returns (r: AddResult)
      requires Valid() && Fresh(acks, key) && StateOf(journal.record) == acks && StoreOk(store, acks)
      requires journal.record.pending.Some? && journal.record.pending.value.operation == ADD
      requires journal.record.pending.value.payload.key == key && journal.record.pending.value.payload.spec == spec
      requires admission.Some? <==> authority
      modifies this`acks, this`store, world, journal, journal.disk
      ensures Valid() && Follows(old(Scene()), Scene())
      ensures (r == AddRefused || r == Created)
      ensures r == Created ==> Certain() && key in acks && acks == old(acks)[key := acks[key]]
      ensures r == Created ==> acks[key].spec == spec.(rest := acks[key].spec.rest) && WellFormed(kit, key, acks[key])
      ensures r == Created ==> acks[key].stage == if authority then PendingCreation else Active
      ensures r == Created ==> key in store && store[key] == acks[key].spec && MatchedAt(key)
      ensures r == Created ==> old(world.seen).pass < world.seen.pass && (world.seen.pass, spec) in world.seen.pods
      ensures r == Created && authority ==>
        admission.value.netns == acks[key].receipt.netns && AdmittedIn(world.seen.pass, key, acks[key].receipt.netns)
      ensures r == AddRefused ==> !Certain()
    {
      var ack := BuildAck(key, spec, admission);
      if ack.None? { return AddRefused; }
      world.NextPass();
      var seen := Confirm(ack.value, spec);
      if !seen { return AddRefused; }
      var ok := CommitAdd(sequence, key, ack.value);
      return if ok then Created else AddRefused;
    }

    /** Acknowledges a creation and stores its record; memory holds it even if the commit fails. */
    method CommitAdd(sequence: nat, key: string, ack: ACK) returns (ok: bool)
      requires Valid() && Fresh(acks, key) && StateOf(journal.record) == acks && StoreOk(store, acks)
      requires Creates(journal.record) && journal.record.pending.value.payload.key == key == ack.key
      requires WellFormed(kit, key, ack) && ack.verifiedAt == 0 && ack.reason == ""
      requires ack.stage == PendingCreation || (ack.stage == Active && ack.admission.None?)
      requires ack.spec == journal.record.pending.value.payload.spec.(rest := ack.spec.rest)
      modifies this`acks, this`store, journal, journal.disk
      ensures Valid() && old(journal.disk.history) <= journal.disk.history && acks == old(acks)[key := ack]
      ensures if ok then Certain() && key in store && store[key] == ack.spec else !Certain()
    {
      StoreUpdate(store, acks, key, ack);
      assert StoredAt(store, acks, key);
      acks := acks[key := ack];
      ok := CommitState(sequence, acks);
      if ok { Put(key, ack.spec); }
    }

    /** A fresh ADD: the resources must be absent, under the switch of any earlier acknowledgement. */
    method AddFresh(key: string, spec: Spec, admission: Option<Admission>) returns (r: AddResult)
      requires Valid() && Certain() && Fresh(acks, key) && (admission.Some? <==> authority)
      modifies this`acks, this`store, world, journal, journal.disk
      ensures Valid() && Follows(old(Scene()), Scene())
      ensures (r == AddRefused && (acks == old(acks) || !Certain())) || r == Created
      ensures r == Created ==> Certain() && key in acks && acks == old(acks)[key := acks[key]]
      ensures r == Created ==> acks[key].spec == spec.(rest := acks[key].spec.rest) && WellFormed(kit, key, acks[key])
      ensures r == Created ==> acks[key].stage == if authority then PendingCreation else Active
      ensures r == Created ==> key in store && store[key] == acks[key].spec && MatchedAt(key)
      ensures r == Created ==> old(world.seen).pass < world.seen.pass && (world.seen.pass, spec) in world.seen.pods
      ensures r == Created ==> Cleared(world.seen.absences, old(|journal.disk.history|) - 1, key, spec)
      ensures r == Created && key in old(acks) ==>
        ClearedUnder(world.seen.absences, old(|journal.disk.history|) - 1, key, spec, old(acks)[key].receipt.switchUUID)
      ensures r == Created && authority ==>
        admission.value.netns == acks[key].receipt.netns && AdmittedIn(world.seen.pass, key, acks[key].receipt.netns)
    {
      var found := SeeAbsent(key, spec);
      if found.None? || (key in acks && acks[key].receipt.switchUUID != found.value) { return AddRefused; }
      ghost var at, known := |journal.disk.history| - 1, world.seen.absences;
      var sequence := BeginIntent(ADD, ACK(key, spec, UNOBSERVED, PendingCreation, admission, 0, 0, 0, ""));
      if sequence.None? { return AddRefused; }
      r := FinishAdd(sequence.value, key, spec, admission);
      StillCleared(known, world.seen.absences, at, key, spec);
    }

    /** What every ADD checks first: the journal, the request, the authority and the Pod. */
    method Preflight(key: string, spec: Spec) returns (ok: bool, admission: Option<Admission>)
      requires Valid()
      modifies world, journal`blocked
      ensures Valid() && Grows(old(world.seen), world.seen)
      ensures ok ==> Certain() && old(Certain()) && acks == StateOf(journal.record) && StoreOk(store, acks)
      ensures ok ==> world.seen.pass == old(world.seen).pass + 1 && (world.seen.pass, spec) in world.seen.pods
      ensures ok && Fresh(acks, key) ==> (admission.Some? <==> authority)
      ensures admission.Some? ==> authority && AdmittedIn(world.seen.pass, key, admission.value.netns)
    {
      admission := None;
      ok := Ready();
      if !ok || !kit.consistent(key, spec, UNOBSERVED) { return false, None; }
      world.NextPass();
      ok, admission := Admit(key);
      if ok { ok := world.Pod(spec); }
    }

    /** ADD: replays an acknowledged endpoint, creates an absent one, adopts nothing. The Pod is checked
        before anything else and, after a creation, once more; only an active endpoint's workload is
        checked as running. */
    method Add(key: string, spec: Spec, malformed: bool) returns (r: AddResult)
      requires Valid()
      modifies this`acks, this`store, world, journal, journal.disk
      ensures Valid() && Follows(old(Scene()), Scene())
      ensures r == Created ==> old(Certain()) && Certain() && Fresh(old(acks), key)
      ensures r == Created ==> key in acks && acks == old(acks)[key := acks[key]] && StateOf(journal.record) == acks
      ensures r == Created ==> acks[key].spec == spec.(rest := acks[key].spec.rest) && WellFormed(kit, key, acks[key])
      ensures r == Created ==> acks[key].stage == if authority then PendingCreation else Active
      ensures r == Created || r == Replayed ==> key in acks && key in store && store[key] == acks[key].spec && MatchedAt(key)
      ensures r == Created || r == Replayed ==> (old(world.seen).pass + 1, spec) in world.seen.pods
      ensures r == Created ==> old(world.seen).pass + 1 < world.seen.pass && (world.seen.pass, spec) in world.seen.pods
      ensures r == Created ==> Cleared(world.seen.absences, old(|journal.disk.history|) - 1, key, spec)
      ensures r == Created && key in old(acks) ==>
        ClearedUnder(world.seen.absences, old(|journal.disk.history|) - 1, key, spec, old(acks)[key].receipt.switchUUID)
      ensures authority && (r == Created || (r == Replayed && acks[key].stage == PendingCreation)) ==>
        && AdmittedIn(old(world.seen).pass + 1, key, acks[key].receipt.netns)
        && AdmittedIn(world.seen.pass, key, acks[key].receipt.netns)
      ensures r == Replayed ==> world.seen.pass == old(world.seen).pass + 1 && (acks[key].stage == Active ==> LiveAt(key))
      ensures r == Replayed ==> acks == old(acks) && key in acks && acks[key].spec == spec
      ensures r != Created ==> acks == old(acks) || !Certain()
      ensures key in old(acks) && old(acks)[key].stage == Quarantined ==> r == AddRefused
      ensures !old(Certain()) || stopping ==> r == AddRefused && acks == old(acks) && Undisturbed(old(journal.disk.files))
    {
      if stopping || malformed { return AddRefused; }
      var ok, admission := Preflight(key, spec);
      if !ok { return AddRefused; }
      if key in acks && acks[key].stage != Deleted {
        r := Replay(key, spec, admission);
      } else {
        r := AddFresh(key, spec, admission);
      }
    }

    // -------------------------------------------------------------- DEL

    /** The part of a DEL after its intent is durable: delete, confirm absence, acknowledge. */
    method FinishDel(sequence: nat, key: string) returns (ok: bool)
      requires Valid() && StateOf(journal.record) == acks && StoreOk(store, acks) && key in acks
      requires journal.record.pending.Some? && journal.record.pending.value.operation == DEL
      requires journal.record.pending.value.payload == acks[key] && acks[key].key == key
      modifies this`acks, this`store, world, journal, journal.disk
      ensures Valid() && Adds(old(world.seen), world.seen) && old(journal.disk.history) <= journal.disk.history
      ensures ok ==> Certain() && acks == old(acks)[key := old(acks)[key].(stage := Deleted)] && key !in store
      ensures ok ==> Cleared(world.seen.absences, old(|journal.disk.history|) - 1, key, old(acks)[key].spec)
      ensures !ok ==> !Certain()
    {
      var deleted: bool := *;
      if !deleted { return false; }
      var found := SeeAbsent(key, acks[key].spec);
      if found.None? { return false; }
      StoreUpdate(store, acks, key, acks[key].(stage := Deleted));
      acks := acks[key := acks[key].(stage := Deleted)];
      ok := CommitState(sequence, acks);
      if ok { store := store - {key}; }
    }

    /** DEL: removes exactly the acknowledged resources, and answers for unknown or stale endpoints. */
    method Del(key: string, identity: string) returns (r: DelResult)
      requires Valid()
      modifies this`acks, this`store, world, journal, journal.disk
      ensures Valid() && Follows(old(Scene()), Scene())
      ensures r == Removed ==> old(Certain()) && Certain() && key in old(acks) && old(acks)[key].stage != Deleted
      ensures r == Removed ==> old(acks)[key].spec.identity == identity && key !in store
      ensures r == Removed ==> old(world.seen).pass < world.seen.pass && (world.seen.pass, old(acks)[key]) in world.seen.matched
      ensures r == Removed ==> Cleared(world.seen.absences, old(|journal.disk.history|), key, old(acks)[key].spec)
      ensures r == Removed ==> acks == old(acks)[key := old(acks)[key].(stage := Deleted)] && StateOf(journal.record) == acks
      ensures r == AlreadyAbsent ==> acks == old(acks) && Fresh(acks, key)
      ensures r == StaleOperation ==> acks == old(acks) && key in acks && acks[key].spec.identity != identity
      ensures r != Removed ==> acks == old(acks) || !Certain()
      ensures !old(Certain()) || stopping ==> r == DelRefused && acks == old(acks) && Undisturbed(old(journal.disk.files))
    {
      if stopping { return DelRefused; }
      var ok := Ready();
      if !ok { return DelRefused; }
      if key !in acks { return AlreadyAbsent; }
      var a := acks[key];
      if a.spec.identity != identity { return StaleOperation; }
      if a.stage == Deleted { return AlreadyAbsent; }
      world.NextPass();
      ok := Delete(key);
      r := if ok then Removed else DelRefused;
    }

    /** Deletes an acknowledged endpoint whose resources are seen as acknowledged. */
    method Delete(key: string) returns (ok: bool)
      requires Valid() && Certain() && key in acks && acks[key].stage != Deleted
      modifies this`acks, this`store, world, journal, journal.disk
      ensures Valid() && Adds(old(world.seen), world.seen) && old(journal.disk.history) <= journal.disk.history
      ensures ok ==> Certain() && acks == old(acks)[key := old(acks)[key].(stage := Deleted)] && key !in store
      ensures ok ==> (world.seen.pass, old(acks)[key]) in world.seen.matched
      ensures ok ==> Cleared(world.seen.absences, old(|journal.disk.history|), key, old(acks)[key].spec)
      ensures !ok ==> acks == old(acks) || !Certain()
    {
      ok := world.Resources(acks[key]);
      if !ok { return; }
      EveryAckSound(kit, journal.disk.history, |journal.disk.history| - 1);
      assert SoundAt(kit, acks, key);
      var sequence := BeginIntent(DEL, acks[key]);
      if sequence.None? { return false; }
      ok := FinishDel(sequence.value, key);
    }

    // -------------------------------------------------------------- verification

    /** The verdict a verification of this pass reaches on an acknowledgement. */
    ghost function VerdictOn(a: ACK, started: nat, ended: nat): Verdict
      requires Valid()
      reads this, journal, journal.disk, world
    {
      Verdict(|journal.disk.history| - 1, world.seen.pass, a, started, ended)
    }

    /** Looks at a pending endpoint: `pending` leaves it undecided, an empty reason finds nothing wrong. */
    method Examine(a: ACK, started: nat) returns (pending: bool, reason: string, ghost w: Seen, ghost matched: bool)
      requires Valid() && !Appears(world.seen, (world.seen.pass, a))
      modifies world
      ensures Valid() && Adds(old(world.seen), world.seen) && world.seen.verdicts == old(world.seen).verdicts
      ensures pending <==> w == Unclear && started < a.verifyBy
      ensures !pending ==> (reason == "" <==> w == Alive && matched && started < a.verifyBy)
      ensures w == Alive <==> (world.seen.pass, a) in world.seen.alive
      ensures w == Gone <==> (world.seen.pass, a) in world.seen.gone
      ensures matched <==> (world.seen.pass, a) in world.seen.matched
    {
      pending, reason, matched := false, "", false;
      var seen := world.Workload(a);
      w := seen;
      if seen == Gone {
        reason := "Pod deleted before activation";
      } else if seen == Conflicting {
        reason := "runtime workload identity conflict";
      } else if started >= a.verifyBy {
        reason := "runtime publication deadline expired";
      } else if seen == Unclear {
        pending := true;
      } else {
        var ok := world.Resources(a);
        matched := ok;
        if !ok { reason := "acknowledged resource identity unavailable or changed"; }
      }
    }

    /** One pass over one pending endpoint, with three clock readings. An unclear workload before the
        deadline decides nothing; only a live workload with matching resources before the deadline,
        at both readings, is a verdict and activates; everything else quarantines. */
    method Decide(a: ACK, started: nat, ended: nat, stamp: nat)
      returns (after: Option<ACK>, ghost w: Seen, ghost matched: bool)
      requires Valid() && a.stage == PendingCreation
      modifies world
      ensures Valid() && world.seen.pass == old(world.seen).pass + 1 && Grows(old(world.seen), world.seen)
      ensures after.None? <==> w == Unclear && started < a.verifyBy
      ensures after.Some? ==> Decides(a, after.value)
      ensures after.Some? ==>
        (after.value.stage == Active <==> w == Alive && matched && started < a.verifyBy && ended < a.verifyBy)
      ensures after.Some? && after.value.stage == Active ==> after.value == a.(stage := Active, verifiedAt := stamp)
      ensures after.Some? && after.value.stage == Quarantined ==>
        after.value == a.(stage := Quarantined, reason := after.value.reason) && after.value.reason != ""
      ensures w == Alive <==> (world.seen.pass, a) in world.seen.alive
      ensures w == Gone <==> (world.seen.pass, a) in world.seen.gone
      ensures matched <==> (world.seen.pass, a) in world.seen.matched
      ensures world.seen.verdicts == old(world.seen).verdicts +
        if after.Some? && after.value.stage == Active then {VerdictOn(a, started, ended)} else {}
    {
      world.NextPass();
      assert SeenBy(old(world.seen), (world.seen.pass, a));
      var pending, reason;
      pending, reason, w, matched := Examine(a, started);
      if pending { return None, w, matched; }
      if reason == "" && ended >= a.verifyBy { reason := "runtime publication deadline expired during verification"; }
      if reason != "" {
        after := Some(a.(stage := Quarantined, reason := reason));
        return;
      }
      world.Judge(VerdictOn(a, started, ended));
      JudgedGrows(old(world.seen).verdicts, world.seen.verdicts, journal.disk.history);
      after := Some(a.(stage := Active, verifiedAt := stamp));
    }

    /** Makes one decision durable; a quarantined endpoint loses its record. */
    method Record(key: string, after: ACK) returns (ok: bool)
      requires Valid() && Certain() && key in acks && after.key == key && Decides(acks[key], after)
      requires after.stage == Active ==> Judged(world.seen.verdicts, |journal.disk.history| - 1, acks[key])
      modifies this`acks, this`store, journal, journal.disk
      ensures Valid() && old(journal.disk.history) <= journal.disk.history
      ensures ok ==> Certain() && acks == old(acks)[key := after]
      ensures !ok ==> acks == old(acks) && store == old(store)
    {
      var sequence := BeginIntent(IDENTITY, after);
      if sequence.None? { return false; }
      var next := acks[key := after];
      StoreUpdate(store, acks, key, after);
      assert StoredAt(store, acks, key);
      ok := CommitState(sequence.value, next);
      if !ok { return; }
      acks := next;
      if after.stage == Quarantined {
        store := store - {key};
      } else {
        StoreKept(store, old(acks), key, after);
      }
    }

    /** Verifies every pending endpoint. Success leaves none pending and everything else untouched, and
        each endpoint it activated has a verdict of this call on its pending form. */
    method VerifyPending() returns (ok: bool)
      requires Valid()
      modifies this`acks, this`store, world, journal, journal.disk
      ensures Valid() && Follows(old(Scene()), Scene())
      ensures stopping ==> acks == old(acks) && Undisturbed(old(journal.disk.files))
      ensures ok && !stopping ==> Certain() && forall key :: VerifiedAt(old(acks), acks, {}, key)
      ensures ok ==> forall key :: ActivatedAt(old(acks), acks, world.seen.verdicts, old(world.seen).pass, key)
    {
      if stopping {
        forall key ensures ActivatedAt(old(acks), acks, world.seen.verdicts, old(world.seen).pass, key) { }
        return true;
      }
      ok := Ready();
      if !ok { return; }
      ghost var was := acks;
      var todo := acks.Keys;
      while todo != {}
        invariant Valid() && Certain() && Follows(old(Scene()), Scene())
        invariant forall key :: VerifiedAt(was, acks, todo, key)
        invariant forall key :: ActivatedAt(was, acks, world.seen.verdicts, old(world.seen).pass, key)
        decreases |todo|
      {
        var key :| key in todo;
        assert VerifiedAt(was, acks, todo, key);
        ghost var before := acks;
        if acks[key].stage == PendingCreation {
          ghost var verdicts := world.seen.verdicts;
          ok := VerifyOne(key);
          if !ok { return; }
          ActivatedGrows(was, before, verdicts, world.seen.verdicts, old(world.seen).pass);
          ActivatedStep(was, before, acks, world.seen.verdicts, old(world.seen).pass, key);
        }
        VerifiedStep(was, before, acks, todo, key);
        todo := todo - {key};
      }
      return true;
    }

    /** One round of the loop: decide and record. */
    method VerifyOne(key: string) returns (ok: bool)
      requires Valid() && Certain() && key in acks && acks[key].stage == PendingCreation
      modifies this`acks, this`store, world, journal, journal.disk
      ensures Valid() && Follows(old(Scene()), Scene()) && old(world.seen).verdicts <= world.seen.verdicts
      ensures ok ==> Certain() && key in acks && acks == old(acks)[key := acks[key]] && Decides(old(acks)[key], acks[key])
      ensures ok && acks[key].stage == Active ==>
        exists v :: v in world.seen.verdicts && v.ack == old(acks)[key] && old(world.seen).pass < v.pass
    {
      var started: nat, ended: nat, stamp: nat :| 0 <= started && 0 <= ended && 0 <= stamp;
      EveryAckSound(kit, journal.disk.history, |journal.disk.history| - 1);
      assert SoundAt(kit, acks, key);
      var after, _, _ := Decide(acks[key], started, ended, stamp);
      if after.None? { return false; }
      assert after.value.stage == Active ==> VerdictOn(acks[key], started, ended) in world.seen.verdicts;
      ok := Record(key, after.value);
    }

    /** The process is draining: from now on CNI calls are refused and nothing is exported. */
    method Stop()
      requires Valid()
      modifies this`stopping
      ensures Valid() && stopping
    {
      stopping := true;
    }

    /** CHECK succeeds only for an active durable endpoint seen alive and matching. */
    method CheckEndpoint(key: string, identity: string) returns (ok: bool)
      requires Valid()
      modifies world, journal`blocked
      ensures Valid() && Follows(old(Scene()), Scene())
      ensures ok ==> !stopping && old(Certain()) && key in StateOf(journal.record) && acks == StateOf(journal.record)
      ensures ok ==> acks[key].stage == Active && acks[key].spec.identity == identity
      ensures ok ==> world.seen.pass == old(world.seen).pass + 1 && LiveAt(key)
    {
      if stopping { return false; }
      ok := Ready();
      if !ok || key !in acks || acks[key].stage != Active || acks[key].spec.identity != identity { return false; }
      world.NextPass();
      var w := world.Workload(acks[key]);
      if w != Alive { return false; }
      ok := world.Resources(acks[key]);
    }

    // -------------------------------------------------------------- the export gate

    /** One endpoint's part of the gate: a deleted Pod loses its record. */
    method ValidateOne(key: string) returns (ok: bool)
      requires Valid() && Certain() && key in acks
      modifies this`store, world
      ensures Valid() && Adds(old(world.seen), world.seen)
      ensures store == old(store) || (store == old(store) - {key} && (world.seen.pass, acks[key]) in world.seen.gone)
      ensures ok ==> (acks[key].stage == Active || acks[key].stage == Deleted) && (key in store ==> LiveAt(key))
    {
      assert StoredAt(store, acks, key);
      if acks[key].stage == PendingCreation || acks[key].stage == Quarantined { return false; }
      if acks[key].stage == Deleted { return true; }
      var w := world.Workload(acks[key]);
      if w == Gone {
        StoreUpdate(store, acks, key, acks[key]);
        store := store - {key};
        return true;
      }
      if w != Alive { return false; }
      ok := world.Resources(acks[key]);
    }

    /** Passes only when nothing is pending or quarantined; records of deleted Pods are dropped, and
        every remaining record was seen alive and matching in this pass. */
    method ValidateContinuity() returns (ok: bool)
      requires Valid()
      modifies this`store, world, journal`blocked
      ensures Valid() && Follows(old(Scene()), Scene()) && store.Keys <= old(store).Keys
      ensures ok ==> old(world.seen).pass < world.seen.pass
      ensures ok ==> Certain() && acks == StateOf(journal.record) && StoreOk(store, acks)
      ensures ok ==> Settled(acks)
      ensures ok ==> forall key | key in store :: LiveAt(key)
      ensures forall key :: DroppedAt(old(store), store, acks, world.seen, key)
    {
      ok := Ready();
      forall key ensures DroppedAt(old(store), store, acks, world.seen, key) { }
      if !ok { return; }
      world.NextPass();
      ok := ValidateAll();
    }

    /** The loop over all acknowledgements, in one pass. */
    method ValidateAll() returns (ok: bool)
      requires Valid() && Certain()
      modifies this`store, world
      ensures Valid() && Adds(old(world.seen), world.seen) && store.Keys <= old(store).Keys
      ensures ok ==> Settled(acks) && forall key | key in store :: LiveAt(key)
      ensures forall key :: DroppedAt(old(store), store, acks, world.seen, key)
    {
      forall key ensures DroppedAt(old(store), store, acks, world.seen, key) { }
      var todo := acks.Keys;
      forall key ensures PassedAt(acks, store, world.seen, todo, key) { }
      while todo != {}
        invariant Valid() && todo <= acks.Keys && store.Keys <= old(store).Keys && Adds(old(world.seen), world.seen)
        invariant forall key :: DroppedAt(old(store), store, acks, world.seen, key)
        invariant forall key :: PassedAt(acks, store, world.seen, todo, key)
        decreases |todo|
      {
        var key :| key in todo;
        ghost var kept, seen := store, world.seen;
        ok := ValidateOne(key);
        DroppedStep(old(store), kept, store, acks, seen, world.seen, key);
        if !ok { return; }
        PassedStep(acks, kept, store, seen, world.seen, todo, key);
        todo := todo - {key};
      }
      forall key | key in acks ensures acks[key].stage == Active || acks[key].stage == Deleted {
        assert PassedAt(acks, store, world.seen, todo, key);
      }
      forall key | key in store ensures LiveAt(key) {
        assert StoredAt(store, acks, key) && PassedAt(acks, store, world.seen, todo, key);
      }
      return true;
    }

    /** Looks for the acknowledgement behind one endpoint, in no particular order. */
    method FindBacking(ep: LocalEndpoint) returns (ok: bool)
      ensures ok ==> exists key :: key in acks && key in store && Vouches(kit, acks[key], ep)
      ensures !ok ==> (forall key | key in acks :: !Names(acks[key], ep))
                      || exists key :: key in acks && Names(acks[key], ep) && !(key in store && Vouches(kit, acks[key], ep))
    {
      var todo := acks.Keys;
      while todo != {}
        invariant todo <= acks.Keys && forall key | key in acks && key !in todo :: !Names(acks[key], ep)
        decreases |todo|
      {
        var key :| key in todo;
        BacksIff(kit, acks, store, key, ep);
        if Selects(acks, key, ep) {
          ok := Backs(kit, acks, store, key, ep);
          return;
        }
        todo := todo - {key};
      }
      return false;
    }

    /** An acknowledgement with a record stands behind the endpoint and was seen alive in this pass. */
    ghost predicate Covered(ep: LocalEndpoint)
      reads this, world
    {
      exists key :: key in acks && key in store && Vouches(kit, acks[key], ep) && LiveAt(key)
    }

    /** Every endpoint that may be exported has an active durable acknowledgement and a live record,
        while nothing at all is pending or quarantined. */
    method Gate(endpoints: seq<LocalEndpoint>) returns (ok: bool)
      requires Valid()
      modifies this`store, world, journal`blocked
      ensures Valid() && Follows(old(Scene()), Scene())
      ensures ok ==> !stopping && Certain() && acks == StateOf(journal.record) && old(world.seen).pass < world.seen.pass
      ensures ok ==> Settled(acks)
      ensures ok ==> forall ep | ep in endpoints :: Covered(ep)
    {
      if stopping { return false; }
      ok := ValidateContinuity();
      if ok { ok := CoverAll(endpoints); }
    }

    /** Finds the acknowledgement behind every endpoint; records are all live. */
    method CoverAll(endpoints: seq<LocalEndpoint>) returns (ok: bool)
      requires forall key | key in store :: LiveAt(key)
      ensures ok ==> forall ep | ep in endpoints :: Covered(ep)
    {
      for i := 0 to |endpoints|
        invariant forall j | 0 <= j < i :: Covered(endpoints[j])
      {
        ok := FindBacking(endpoints[i]);
        if !ok { return; }
        ghost var key :| key in acks && key in store && Vouches(kit, acks[key], endpoints[i]);
        assert LiveAt(key);
      }
      return true;
    }

    /** The present moment, as the entry of an Add. */
    ghost function Moment(ep: LocalEndpoint): Sent
      requires Valid()
      reads this, journal, journal.disk, world
    {
      AddSent(ep, |journal.disk.history| - 1, world.seen.pass, store)
    }

    /** An export Add reaches the applier only through the gate, on sightings of this very call. */
    method ExportAdd(applier: Applier, ep: LocalEndpoint) returns (uuid: Option<string>)
      requires Valid()
      modifies this`store, world, journal`blocked, applier
      ensures Valid() && Follows(old(Scene()), Scene())
      ensures applier.log == old(applier.log) ||
              (applier.log == old(applier.log) + [Moment(ep)] && !stopping && Gated(kit, Scene(), Moment(ep))
               && old(world.seen).pass < world.seen.pass)
      ensures uuid.Some? ==> applier.log != old(applier.log)
    {
      var open := Gate([ep]);
      if !open { return None; }
      assert ep in [ep];
      ghost var key :| key in acks && key in store && Vouches(kit, acks[key], ep) && LiveAt(key);
      assert Stands(kit, Scene(), StateOf(journal.record), Moment(ep), key);
      uuid := applier.Add(ep, Moment(ep));
    }

    /** A withdrawal by UUID needs no gate: it is passed on whatever the state of the endpoints. */
    method ExportDelete(applier: Applier, uuid: string) returns (ok: bool)
      modifies applier
      ensures applier.log == old(applier.log) + [DeleteSent(uuid)]
    {
      ok := applier.Delete(uuid);
    }
  }

  /** The record of a crash inside ADD or DEL. */
  ghost predicate Interrupted(r: Record<Acks, ACK>)
  {
    r.pending.Some? && r.pending.value.operation != IDENTITY
  }

  /** Resolves an interrupted decision by committing the state before it; nothing else is resolved. */
  method DropDecision(s: Server, pending: Option<Intent<ACK>>) returns (ok: bool)
    requires s.Valid() && !s.journal.blocked && s.journal.record.pending == pending && StateOf(s.journal.record) == s.acks
    requires s.store == map[]
    modifies s.journal, s.journal.disk
    ensures s.Valid() && old(s.journal.disk.history) <= s.journal.disk.history
    ensures ok ==> s.Certain()
    ensures pending.Some? && pending.value.operation != IDENTITY ==> !ok && s.journal.disk.files == old(s.journal.disk.files)
  {
    if pending.None? { return true; }
    if pending.value.operation != IDENTITY { return false; }
    if !Droppable(s.acks, pending.value.payload) { return false; }
    ok := s.CommitState(pending.value.sequence, s.acks);
  }

  /** One acknowledgement is where it belongs after recovery: well-formed; pending and live active
      endpoints have a record with matching resources; only a deleted Pod leaves an active one without. */
  ghost predicate RestoredAt(s: Server, key: string)
    reads s, s.world
  {
    && (key in s.acks ==> WellFormed(s.kit, key, s.acks[key]))
    && (key in s.acks && s.acks[key].stage == PendingCreation ==> key in s.store)
    && (key in s.acks && s.acks[key].stage == Active ==> key in s.store || (s.world.seen.pass, s.acks[key]) in s.world.seen.gone)
    && (key in s.store ==> key in s.acks && (s.world.seen.pass, s.acks[key]) in s.world.seen.matched)
  }

  method RestoreOne(s: Server, key: string) returns (ok: bool)
    requires s.Valid() && s.Certain() && key in s.acks && key !in s.store
    modifies s`store, s.world
    ensures s.Valid() && (s.store == old(s.store) || s.store == old(s.store)[key := s.acks[key].spec])
    ensures Adds(old(s.world.seen), s.world.seen)
    ensures ok ==> RestoredAt(s, key)
  {
    var a := s.acks[key];
    ValidatesIff(s.kit, key, a);
    if !Validates(s.kit, key, a) { return false; }
    var keep := a.stage == PendingCreation || a.stage == Active;
    if a.stage == Active {
      var w := s.world.Workload(a);
      if w == Unclear || w == Conflicting { return false; }
      keep := w == Alive;
    }
    if !keep { return true; }
    ok := s.world.Resources(a);
    if ok {
      ghost var before := s.store;
      s.store := s.store[key := a.spec];
      forall k ensures StoredAt(s.store, s.acks, k) { assert StoredAt(before, s.acks, k); }
    }
  }

  /** Rebuilds the records: pending and live active endpoints, each with matching resources. */
  method RestoreStore(s: Server) returns (ok: bool)
    requires s.Valid() && s.Certain() && s.store == map[]
    modifies s`store, s.world
    ensures s.Valid() && Follows(old(s.Scene()), s.Scene())
    ensures ok ==> forall key :: RestoredAt(s, key)
  {
    s.world.NextPass();
    var todo := s.acks.Keys;
    while todo != {}
      invariant s.Valid() && Follows(old(s.Scene()), s.Scene())
      invariant todo <= s.acks.Keys && todo !! s.store.Keys
      invariant forall key :: key !in todo ==> RestoredAt(s, key)
      decreases |todo|
    {
      var key :| key in todo;
      ok := RestoreOne(s, key);
      if !ok { return; }
      todo := todo - {key};
    }
    return true;
  }

  /** Restart. A crash inside ADD or DEL refuses every restart; a crash inside a verification
      restores the state before it; otherwise memory is the durable state. */
  method Recover(kit: Kit, world: World, disk: Disk<Acks, ACK>, domain: Domain, authority: bool, faulty: bool)
    returns (s: Server?)
    requires SiteOk(kit, world, disk)
    modifies world, disk
    ensures SiteOk(kit, world, disk) && Follows(old(SceneOf(world, disk)), SceneOf(world, disk))
    ensures s != null ==> fresh(s) && fresh(s.journal) && s.kit == kit && s.world == world && s.journal.disk == disk
    ensures s != null ==> s.Valid() && s.Certain()
    ensures old(disk.files).Stored? && Interrupted(old(disk.files).record) ==> s == null && disk.files == old(disk.files)
    ensures s != null ==> s.acks == if old(disk.files).Stored? then StateOf(old(disk.files).record) else map[]
    ensures s != null ==> forall key :: RestoredAt(s, key)
    ensures old(disk.files).Stored? ==>
      forall key | key in StateOf(old(disk.files).record) && !WellFormed(kit, key, StateOf(old(disk.files).record)[key]) :: s == null
  {
    s := null;
    ghost var stored := disk.files;
    var journal := Journal.Open(disk, domain, true, faulty);
    if disk.files.Stored? && !old(disk.files).Stored? { FirstRecord(kit, world, disk); }
    if journal == null { return; }
    var snap := journal.Snapshot();
    if snap.Blocked? { return; }
    var acks := if snap.state.None? then map[] else snap.state.value;
    var server := new Server(kit, world, journal, authority, acks, map[]);
    var ok := DropDecision(server, snap.pending);
    if ok { ok := RestoreStore(server); }
    if !ok { return; }
    s := server;
    if stored.Stored? {
      forall key | key in StateOf(stored.record) ensures WellFormed(kit, key, StateOf(stored.record)[key]) {
        assert RestoredAt(s, key);
      }
    }
  }

  lemma FirstRecord(kit: Kit, world: World, disk: Disk<Acks, ACK>)
    requires Coherent(world.seen) && disk.Valid() && |disk.history| == 1
    ensures SiteOk(kit, world, disk)
  {
    forall i
      ensures StepAt(kit, disk.history, i) && JudgedAt(world.seen.verdicts, disk.history, i)
      ensures ClearedAt(world.seen.absences, disk.history, i)
    {
    }
  }

  // ---------------------------------------------------------------- every run

  datatype Call = Restart(faulty: bool) | CallAdd(key: string, spec: Spec, malformed: bool)
                | CallDel(key: string, identity: string) | CallCheck(key: string, identity: string)
                | CallVerify | CallStop | CallGate(endpoints: seq<LocalEndpoint>)
                | CallExport(ep: LocalEndpoint) | CallWithdraw(uuid: string)

  /** If the endpoint is active on disk and was created under an authority, then at an earlier record it
      was pending, and a verification that saw exactly that acknowledgement found the workload alive and
      the resources matching in one pass, before the deadline at both of its readings. */
  ghost predicate Founded(world: World, h: seq<Record<Acks, ACK>>, j: int, key: string)
    reads world
  {
    0 <= j < |h| && key in StateOf(h[j]) && StateOf(h[j])[key].stage == Active && StateOf(h[j])[key].admission.Some? ==>
      exists v :: v in world.seen.verdicts && Founds(world, h, j, key, v)
  }

  ghost predicate Founds(world: World, h: seq<Record<Acks, ACK>>, j: int, key: string, v: Verdict)
    requires 0 <= j < |h| && key in StateOf(h[j])
    reads world
  {
    && v.at < j && key in StateOf(h[v.at]) && v.ack == StateOf(h[v.at])[key]
    && Decides(v.ack, StateOf(h[j])[key]) && Grounded(world.seen, v)
  }

  lemma EveryActivationFounded(kit: Kit, world: World, disk: Disk<Acks, ACK>, j: int, key: string)
    requires SiteOk(kit, world, disk)
    ensures Founded(world, disk.history, j, key)
  {
    var h := disk.history;
    if 0 <= j < |h| && key in StateOf(h[j]) && StateOf(h[j])[key].stage == Active && StateOf(h[j])[key].admission.Some? {
      var v := ActivationHasVerdict(kit, world.seen.verdicts, h, j, key);
      assert GroundedAt(world.seen, v);
      assert Founds(world, h, j, key, v);
    }
  }

  /** If the endpoint has an acknowledgement, it was seen absent before its creation was intended; if that
      says deleted, it was seen absent again after its deletion was intended. */
  ghost predicate Vacated(world: World, h: seq<Record<Acks, ACK>>, j: int, key: string)
    reads world
  {
    0 <= j < |h| && key in StateOf(h[j]) ==>
      var ack := StateOf(h[j])[key];
      && (exists i, spec: Spec | 0 <= i < j && ack.spec == spec.(rest := ack.spec.rest) ::
            Creates(h[i + 1]) && h[i + 1].pending.value.payload.key == key && Cleared(world.seen.absences, i, key, spec))
      && (ack.stage == Deleted ==>
            exists i | 0 <= i < j :: Removes(h[i]) && h[i].pending.value.payload.(stage := Deleted) == ack
                                     && Cleared(world.seen.absences, i, key, ack.spec))
  }

  lemma EveryChangeVacated(kit: Kit, world: World, disk: Disk<Acks, ACK>, j: int, key: string)
    requires SiteOk(kit, world, disk)
    ensures Vacated(world, disk.history, j, key)
  {
    var h := disk.history;
    if 0 <= j < |h| && key in StateOf(h[j]) {
      var i, spec := CreationHasAbsence(kit, world.seen.absences, h, j, key);
      if StateOf(h[j])[key].stage == Deleted {
        var k := DeletionHasAbsence(kit, world.seen.absences, h, j, key);
      }
    }
  }

  /** Any calls in any order, any observations, any failed writes, any crashes and restarts: the
      history on disk stays legal, every activation ever on disk is founded on a verdict, every creation
      and every deletion on an absence, and every Add the applier ever received was gated at that moment. */
  method AnyCNIRun(kit: Kit, world: World, disk: Disk<Acks, ACK>, applier: Applier, domain: Domain, authority: bool,
                   calls: seq<Call>)
    requires SiteOk(kit, world, disk) && AllGated(kit, SceneOf(world, disk), applier.log)
    modifies world, disk, applier
    ensures SiteOk(kit, world, disk) && AllGated(kit, SceneOf(world, disk), applier.log)
    ensures old(disk.history) <= disk.history && old(applier.log) <= applier.log
    ensures forall j, key :: Founded(world, disk.history, j, key)
    ensures forall j, key :: Vacated(world, disk.history, j, key)
  {
    var s: Server? := null;
    for k := 0 to |calls|
      invariant SiteOk(kit, world, disk) && AllGated(kit, SceneOf(world, disk), applier.log)
      invariant old(disk.history) <= disk.history && old(applier.log) <= applier.log
      invariant s != null ==> fresh(s) && fresh(s.journal) && s.Valid()
      invariant s != null ==> s.kit == kit && s.world == world && s.journal.disk == disk
    {
      ghost var before := SceneOf(world, disk);
      if calls[k].Restart? {
        s := Recover(kit, world, disk, domain, authority, calls[k].faulty);
        StaysGated(kit, before, SceneOf(world, disk), applier.log);
      } else if s != null {
        Serve(s, applier, calls[k]);
      }
    }
    forall j, key ensures Founded(world, disk.history, j, key) { EveryActivationFounded(kit, world, disk, j, key); }
    forall j, key ensures Vacated(world, disk.history, j, key) { EveryChangeVacated(kit, world, disk, j, key); }
  }

  /** One call to a running server. */
  method Serve(s: Server, applier: Applier, call: Call)
    requires s.Valid() && AllGated(s.kit, s.Scene(), applier.log)
    modifies s, s.world, s.journal, s.journal.disk, applier
    ensures s.Valid() && AllGated(s.kit, s.Scene(), applier.log)
    ensures Follows(old(s.Scene()), s.Scene()) && old(applier.log) <= applier.log
  {
    ghost var before, log := s.Scene(), applier.log;
    match call {
    case Restart(_) =>
    case CallAdd(key, spec, malformed) => var _ := s.Add(key, spec, malformed);
    case CallDel(key, identity) => var _ := s.Del(key, identity);
    case CallCheck(key, identity) => var _ := s.CheckEndpoint(key, identity);
    case CallVerify => var _ := s.VerifyPending();
    case CallStop => s.Stop();
    case CallGate(endpoints) => var _ := s.Gate(endpoints);
    case CallExport(ep) => var _ := s.ExportAdd(applier, ep);
    case CallWithdraw(uuid) => var _ := s.ExportDelete(applier, uuid);
    }
    StaysGated(s.kit, before, s.Scene(), log);
    if applier.log != log {
      assert applier.log == log + [applier.log[|log|]];
      GatedAppends(s.kit, s.Scene(), log, applier.log[|log|]);
    }
  }

  lemma StoreKept(store: map<string, Spec>, acks: Acks, key: string, a: ACK)
    requires StoreOk(store, acks) && key in acks && a.spec == acks[key].spec && a.stage == Active
    ensures StoreOk(store, acks[key := a])
  {
    var next := acks[key := a];
    forall k ensures StoredAt(store, next, k) { assert StoredAt(store, acks, k); }
  }
}

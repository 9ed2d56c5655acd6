/** The durable exporter: plan, apply and acknowledge through the ownership journal. A crash
    is any early return followed by `Open` on the same disk and speaker. */
module ExportRecoveryModel {
  import opened Basics
  import opened OwnershipJournal
  import opened Endpoints
  import opened SpeakerEnvironment
  import opened ExportReceipts

  /** What a process can rely on, and must leave behind, about the disk and the speaker. */
  ghost predicate SiteValid(disk: Disk<ExportState, Payload>, speaker: Speaker)
    reads disk, speaker
  {
    && disk.Valid() && speaker.Valid()
    && ExportHistory(speaker.codec, disk.history) && AllRest(speaker.codec, speaker.readings, disk.history)
    && (disk.files.Stored? ==>
          Fits(speaker.codec, StateOf(disk.files.record), disk.files.record.pending, speaker.now, speaker.orphans))
  }

  datatype OpenResult = Opened | JournalUnavailable | InvalidState

  class ExportRecovery {
    const journal: Journal<ExportState, Payload>
    const speaker: Speaker
    var state: ExportState

    ghost predicate Valid()
      reads this, journal, journal.disk, speaker
    {
      && journal.Valid() && SiteValid(journal.disk, speaker) && state == StateOf(journal.record)
      && ValidState(speaker.codec, state)
    }

    /** The receipts in memory are those on disk, and no outcome is uncertain. */
    ghost predicate Durable()
      reads this, journal, journal.disk
    {
      && !journal.blocked && journal.record.pending.None? && journal.disk.files == Stored(journal.record)
      && state == StateOf(journal.record)
    }

    constructor Bind(journal: Journal<ExportState, Payload>, speaker: Speaker, state: ExportState)
      ensures this.journal == journal && this.speaker == speaker && this.state == state
    {
      this.journal, this.speaker, this.state := journal, speaker, state;
    }

    /** Reopening never rejects what this code itself left on disk. */
    static method Open(disk: Disk<ExportState, Payload>, speaker: Speaker, domain: Domain, faulty: bool)
      returns (r: ExportRecovery?, result: OpenResult)
      requires SiteValid(disk, speaker)
      modifies disk
      ensures SiteValid(disk, speaker) && old(disk.history) <= disk.history
      ensures result != InvalidState
      ensures result == Opened <==> r != null
      ensures r != null ==> fresh(r) && fresh(r.journal) && r.journal.disk == disk && r.speaker == speaker && r.Valid()
      ensures old(disk.files).Stored? ==> disk.files == old(disk.files)
    {
      r := null;
      var j := Journal.Open(disk, domain, true, faulty);
      if j == null { return null, JournalUnavailable; }
      var snap := j.Snapshot();
      if snap.Blocked? {
        j.Close();
        return null, JournalUnavailable;
      }
      var state := Accept(speaker.codec, snap.state, snap.pending);
      if state.None? {
        j.Close();
        EveryStateValid(speaker.codec, disk.history, |disk.history| - 1);
        if snap.state.None? { FirstOperationIsCheckpoint(speaker.codec, disk.history, |disk.history| - 1); }
        assert false;
        return null, InvalidState;
      }
      EveryStateValid(speaker.codec, disk.history, |disk.history| - 1);
      r := new ExportRecovery.Bind(j, speaker, state.value);
      result := Opened;
    }

    /** Decode, default and check the stored state as reopening does. */
    static method Accept(c: Codec, stored: Option<ExportState>, pending: Option<Intent<Payload>>)
      returns (state: Option<ExportState>)
      ensures state.Some? <==>
        if stored.Some? then ValidState(c, stored.value)
        else pending.None? || pending.value.operation == CHECKPOINT
      ensures state.Some? ==> state.value == if stored.Some? then stored.value else ExportState(1, "", [])
    {
      if stored.Some? {
        var ok := Validate(c, stored.value);
        return if ok then stored else None;
      }
      var version := if pending.None? || pending.value.operation == CHECKPOINT then 1 else 0;
      return if version == 0 && pending.Some? then None else Some(ExportState(version, "", []));
    }

    method BeginIntent(operation: string, payload: Payload) returns (sequence: Option<nat>)
      requires Valid()
      requires !journal.blocked && journal.record.pending.None? ==>
        LegalIntent(speaker.codec, state, Intent(journal.record.sequence + 1, operation, payload))
      requires !journal.blocked && operation == ADD && payload.RouteIntent? ==>
        VacancySeen(speaker.readings, state.incarnation, |journal.disk.history| - 1, payload.route.nlri)
      modifies journal`record, journal`blocked, journal.disk
      ensures Valid() && old(journal.disk.history) <= journal.disk.history
      ensures sequence.Some? ==>
        && !journal.blocked && old(!journal.blocked && journal.record.pending.None?)
        && journal.record.pending == Some(Intent(sequence.value, operation, payload))
        && journal.disk.files == Stored(journal.record) && StateOf(journal.record) == state
        && journal.disk.history == old(journal.disk.history) + [journal.record]
    {
      ghost var h, before := journal.disk.history, journal.record;
      ghost var next := Begun(before, operation, payload);
      sequence := journal.Begin(operation, payload);
      if journal.disk.history != h {
        assert LegalAt(journal.disk.history, |h| - 1);
        assert ExportStep(speaker.codec, before, next);
        HistoryExtends(speaker.codec, h, next);
        BeginRests(speaker.codec, speaker.readings, before, next, |h| - 1);
        RestExtends(speaker.codec, speaker.readings, h, next);
      }
    }

    /** `acknowledged` are the UUIDs whose receipts this commit makes durable. */
    method CommitState(sequence: nat, next: ExportState, ghost acknowledged: set<string>) returns (ok: bool)
      requires Valid()
      requires !journal.blocked ==>
        && journal.record.pending.Some? && LegalResult(speaker.codec, journal.record, next)
        && Fits(speaker.codec, next, None, speaker.now, speaker.orphans - acknowledged)
        && Rests(speaker.codec, speaker.readings, journal.record, Acknowledged(journal.record, next),
                 |journal.disk.history| - 1)
      modifies this`state, journal`record, journal`blocked, journal.disk, speaker`orphans
      ensures Valid() && old(journal.disk.history) <= journal.disk.history
      ensures ok ==> state == next && Durable() && speaker.orphans == old(speaker.orphans) - acknowledged
      ensures !ok ==> state == old(state)
      ensures speaker.orphans == old(speaker.orphans) || speaker.orphans == old(speaker.orphans) - acknowledged
    {
      ghost var h, before := journal.disk.history, journal.record;
      ghost var after := Acknowledged(before, next);
      ok := journal.Commit(sequence, next);
      if journal.disk.history != h {
        assert LegalAt(journal.disk.history, |h| - 1);
        assert ExportStep(speaker.codec, before, after);
        HistoryExtends(speaker.codec, h, after);
        RestExtends(speaker.codec, speaker.readings, h, after);
        EveryStateValid(speaker.codec, journal.disk.history, |h|);
        speaker.orphans := speaker.orphans - acknowledged;
      }
      if ok { state := next; }
    }

    /** The last record on disk. */
    ghost function Mark(): nat
      requires Valid()
      reads this, journal, journal.disk, speaker
    {
      |journal.disk.history| - 1
    }

    method Observe() returns (o: Option<Observation>, ghost at: World)
      requires Valid()
      modifies speaker`now, speaker`readings
      ensures Valid() && Evolves(old(speaker.now), at, {}) && Evolves(at, speaker.now, {})
      ensures speaker.now.handles == old(speaker.now).handles
      ensures o.Some? ==> o.value == Observation(at.incarnation, at.paths)
      ensures old(speaker.readings) <= speaker.readings && (o.Some? ==> RibReading(Mark(), at) in speaker.readings)
      ensures !journal.blocked ==>
        Fits(speaker.codec, state, journal.record.pending, at, speaker.orphans)
    {
      ghost var rec := journal.disk.files.record;
      ghost var start := speaker.now;
      o, at := speaker.Observe(Mark());
      RestGrows(speaker.codec, old(speaker.readings), speaker.readings, journal.disk.history);
      FitsStable(speaker.codec, StateOf(rec), rec.pending, start, at, speaker.orphans);
      FitsStable(speaker.codec, StateOf(rec), rec.pending, at, speaker.now, speaker.orphans);
    }

    ghost predicate Appended(before: ExportState, ep: LocalEndpoint, id: string)
      reads this
    {
      && state.incarnation == before.incarnation && |state.receipts| == |before.receipts| + 1
      && state.receipts[..|before.receipts|] == before.receipts
      && state.receipts[|before.receipts|].owned == Owned(ep, id)
      && (forall r | r in before.receipts :: r.owned.pathUUID != id)
    }

    /** The exporter's Add. `gateOpen` is the CNI continuity gate in front of AddPath. */
    method Add(ep: LocalEndpoint, gateOpen: bool) returns (id: Option<string>, ghost seen: World)
      requires Valid()
      modifies this`state, journal`record, journal`blocked, journal.disk, speaker
      ensures Valid() && old(journal.disk.history) <= journal.disk.history
      ensures old(speaker.orphans) <= speaker.orphans
      ensures id.None? ==> state == old(state)
      ensures id.Some? ==> Durable() && Appended(old(state), ep, id.value)
      ensures id.Some? ==> ReadBack(seen)
    {
      var o, at := Observe();
      seen := at;
      if o.None? || o.value.incarnation != state.incarnation { return None, at; }
      var current := o.value.incarnation;
      var built := DurableRoute(speaker.codec, ep, current, "");
      if built.None? || Matching(o.value.paths, built.value.nlri) != [] { return None, at; }
      if !journal.blocked && journal.record.pending.None? {
        forall r | r in state.receipts ensures r.nlri != built.value.nlri { assert Carries(at.paths, r.nlri); }
      }
      var sequence := BeginIntent(ADD, RouteIntent(current, built.value));
      if sequence.None? || !gateOpen { return None, at; }
      id, seen := ExecuteAndAcknowledge(sequence.value, built.value);
    }

    /** The last receipt was confirmed by what the speaker held at this instant, and has been since. */
    ghost predicate ReadBack(seen: World)
      reads this, speaker
    {
      && state.receipts != [] && Evolves(seen, speaker.now, {})
      && Confirms(speaker.codec, Observation(seen.incarnation, seen.paths), state.receipts[|state.receipts| - 1])
    }

    /** The receipt's path was absent at this instant, in this incarnation. */
    ghost predicate ReadAbsent(seen: World, incarnation: string, nlri: string)
      reads speaker
    {
      seen.incarnation == incarnation && !Carries(seen.paths, nlri) && Evolves(seen, speaker.now, {})
    }

    /** AddPath, its readback, and the commit that turns the route into a receipt. */
    method ExecuteAndAcknowledge(sequence: nat, route: Receipt) returns (id: Option<string>, ghost seen: World)
      requires Valid() && !journal.blocked
      requires journal.record.pending == Some(Intent(sequence, ADD, RouteIntent(state.incarnation, route)))
      requires route.owned.pathUUID == "" && route.incarnation == state.incarnation
      modifies this`state, journal`record, journal`blocked, journal.disk, speaker
      ensures Valid() && old(journal.disk.history) <= journal.disk.history
      ensures old(speaker.orphans) <= speaker.orphans
      ensures id.None? ==> state == old(state)
      ensures id.Some? ==> Durable() && Appended(old(state), route.owned.endpoint, id.value) && ReadBack(seen)
    {
      ghost var orphans := speaker.orphans;
      seen := speaker.now;
      id := ExecuteAdd(route.nlri);
      if id.None? { return; }
      var uuid, ep := id.value, route.owned.endpoint;
      var verified;
      verified, seen := Observe();
      if verified.None? || verified.value.incarnation != state.incarnation
         || !ReadsBack(speaker.codec, Matching(verified.value.paths, route.nlri), ep, uuid) { return None, seen; }
      var ok := AcknowledgeAdd(sequence, route, uuid, seen);
      if !ok { return None, seen; }
    }

    /** Commits the route just read back under its UUID. */
    method AcknowledgeAdd(sequence: nat, route: Receipt, uuid: string, ghost seen: World) returns (ok: bool)
      requires Valid() && !journal.blocked && route.incarnation == state.incarnation == seen.incarnation
      requires journal.record.pending == Some(Intent(sequence, ADD, RouteIntent(state.incarnation, route)))
      requires Fits(speaker.codec, state, journal.record.pending, seen, speaker.orphans) && Evolves(seen, speaker.now, {})
      requires RibReading(Mark(), seen) in speaker.readings
      requires ReadsBack(speaker.codec, Matching(seen.paths, route.nlri), route.owned.endpoint, uuid)
      requires
        var u := speaker.codec.parseUUID(uuid);
        && u.Some? && u.value in speaker.now.handles && speaker.now.handles[u.value] == route.nlri
        && (forall r | r in state.receipts :: UUID(speaker.codec, r) != u)
      modifies this`state, journal`record, journal`blocked, journal.disk, speaker`orphans
      ensures Valid() && old(journal.disk.history) <= journal.disk.history
      ensures old(speaker.orphans) - {speaker.codec.parseUUID(uuid).value} <= speaker.orphans
      ensures !ok ==> state == old(state)
      ensures ok ==> Durable() && Appended(old(state), route.owned.endpoint, uuid) && ReadBack(seen)
    {
      var claimed := route.(owned := Owned(route.owned.endpoint, uuid));
      var next := state.(receipts := state.receipts + [claimed]);
      AddFits(speaker.codec, state, journal.record.pending, seen, speaker.now, speaker.orphans, claimed);
      assert AddAcknowledges(speaker.codec, journal.record, next, claimed);
      AddRests(speaker.codec, speaker.readings, journal.record, next, claimed, RibReading(Mark(), seen));
      ok := CommitState(sequence, next, {speaker.codec.parseUUID(uuid).value});
    }

    /** AddPath and the check that it returned a usable UUID. */
    method ExecuteAdd(nlri: string) returns (id: Option<string>)
      requires Valid() && !journal.blocked
      modifies speaker
      ensures Valid() && old(speaker.orphans) <= speaker.orphans
      ensures id.Some? ==>
        var u := speaker.codec.parseUUID(id.value);
        && u.Some? && u.value in speaker.now.handles && speaker.now.handles[u.value] == nlri
        && u.value !in old(speaker.now).handles && speaker.orphans == old(speaker.orphans) + {u.value}
        && (forall r | r in state.receipts :: UUID(speaker.codec, r) != u)
    {
      ghost var rec, start := journal.record, speaker.now;
      id := speaker.AddPath(nlri);
      FitsStable(speaker.codec, StateOf(rec), rec.pending, start, speaker.now, old(speaker.orphans));
      if id.Some? && speaker.codec.parseUUID(id.value).None? { id := None; }
    }

    /** The last receipt with this UUID whose endpoint is equivalent. */
    static function Find(c: Codec, receipts: seq<Receipt>, owned: Owned): (r: Option<Receipt>)
      ensures r.Some? ==> r.value in receipts && r.value.owned.pathUUID == owned.pathUUID
                          && Equivalent(c, r.value.owned.endpoint, owned.endpoint)
      ensures r.None? ==> forall x | x in receipts ::
                !(x.owned.pathUUID == owned.pathUUID && Equivalent(c, x.owned.endpoint, owned.endpoint))
    {
      if receipts == [] then None
      else
        var last := receipts[|receipts| - 1];
        if last.owned.pathUUID == owned.pathUUID && Equivalent(c, last.owned.endpoint, owned.endpoint) then Some(last)
        else Find(c, receipts[..|receipts| - 1], owned)
    }

    /** Deletes exactly the UUID of a receipt of the current incarnation. */
    method Delete(owned: Owned) returns (ok: bool, ghost seen: World)
      requires Valid()
      modifies this`state, journal`record, journal`blocked, journal.disk, speaker
      ensures Valid() && old(journal.disk.history) <= journal.disk.history
      ensures speaker.orphans == old(speaker.orphans)
      ensures !ok ==> state == old(state)
      ensures ok ==> Durable() && Find(speaker.codec, old(state).receipts, owned).Some?
                     && state == old(state).(receipts := WithoutReceipt(old(state).receipts, owned.pathUUID))
      ensures ok ==>
        var r := Find(speaker.codec, old(state).receipts, owned).value;
        ReadAbsent(seen, r.incarnation, r.nlri)
    {
      var o, at := Observe();
      seen := at;
      if o.None? { return false, at; }
      var found := Find(speaker.codec, state.receipts, owned);
      if found.None? || found.value.incarnation != o.value.incarnation { return false, at; }
      var receipt := found.value;
      assert state.incarnation == receipt.incarnation;
      var sequence := BeginIntent(DELETE, RouteIntent(o.value.incarnation, receipt));
      if sequence.None? { return false, at; }
      ok, seen := WithdrawAndAcknowledge(sequence.value, receipt);
    }

    /** DeletePath, the confirmed absence, and the commit that drops the receipt. */
    method WithdrawAndAcknowledge(sequence: nat, receipt: Receipt) returns (ok: bool, ghost seen: World)
      requires Valid() && !journal.blocked && receipt in state.receipts
      requires journal.record.pending == Some(Intent(sequence, DELETE, RouteIntent(state.incarnation, receipt)))
      modifies this`state, journal`record, journal`blocked, journal.disk, speaker
      ensures Valid() && old(journal.disk.history) <= journal.disk.history
      ensures speaker.orphans == old(speaker.orphans)
      ensures !ok ==> state == old(state)
      ensures ok ==> Durable() && state == old(state).(receipts := WithoutReceipt(old(state).receipts, receipt.owned.pathUUID))
      ensures ok ==> ReadAbsent(seen, receipt.incarnation, receipt.nlri)
    {
      ok, seen := WithdrawPath(receipt);
      if !ok { return; }
      DeleteFits(speaker.codec, state, journal.record.pending, speaker.now, speaker.orphans, receipt);
      DropsNothing(speaker.readings, state, Mark());
      SubsequenceReflexive(state.receipts);
      ok := DropReceipt(sequence, state, receipt, seen);
    }

    /** Commits the retained receipts without the one just read as absent. */
    method DropReceipt(sequence: nat, next: ExportState, route: Receipt, ghost seen: World) returns (ok: bool)
      requires Valid() && !journal.blocked && Deleting(journal.record.pending, route) && route in state.receipts
      requires Subsequence(next.receipts, state.receipts) && DropsSeen(speaker.readings, state, next, Mark(), Mark())
      requires
        var rest := next.(receipts := WithoutReceipt(next.receipts, route.owned.pathUUID));
        Shrinks(state, rest) && Fits(speaker.codec, rest, None, speaker.now, speaker.orphans)
      requires RibReading(Mark(), seen) in speaker.readings && Misses(RibReading(Mark(), seen), next.incarnation, route)
      modifies this`state, journal`record, journal`blocked, journal.disk, speaker`orphans
      ensures Valid() && old(journal.disk.history) <= journal.disk.history
      ensures speaker.orphans == old(speaker.orphans)
      ensures !ok ==> state == old(state)
      ensures ok ==> Durable() && state == next.(receipts := WithoutReceipt(next.receipts, route.owned.pathUUID))
    {
      var rest := next.(receipts := WithoutReceipt(next.receipts, route.owned.pathUUID));
      DeleteRests(speaker.codec, speaker.readings, journal.record, next, rest, route, RibReading(Mark(), seen));
      ok := CommitState(sequence, rest, {});
    }

    /** Withdraw by UUID and confirm absence in the same incarnation. */
    method WithdrawPath(receipt: Receipt) returns (ok: bool, ghost seen: World)
      requires Valid() && !journal.blocked
      requires receipt in state.receipts && Deleting(journal.record.pending, receipt)
      modifies speaker`now, speaker`readings
      ensures Valid() && !journal.blocked && old(speaker.readings) <= speaker.readings
      ensures Evolves(old(speaker.now), speaker.now, {receipt.nlri})
      ensures ok ==> ReadAbsent(seen, receipt.incarnation, receipt.nlri) && RibReading(Mark(), seen) in speaker.readings
      ensures ok ==> receipt.incarnation in seen.used
    {
      ghost var rec, start := journal.record, speaker.now;
      assert speaker.Withdrawn(receipt.owned.pathUUID) == {receipt.nlri};
      ok := speaker.DeletePath(receipt.owned.pathUUID);
      FitsDuringDelete(speaker.codec, state, rec.pending, start, speaker.now, speaker.orphans, receipt);
      seen := speaker.now;
      if !ok { return; }
      ghost var mid := speaker.now;
      var verified;
      verified, seen := Observe();
      EvolvesTransitive(mid, seen, speaker.now, {}, {});
      EvolvesTransitive(start, mid, speaker.now, {receipt.nlri}, {});
      assert {receipt.nlri} + {} == {receipt.nlri};
      ok := verified.Some? && verified.value.incarnation == receipt.incarnation
            && Matching(verified.value.paths, receipt.nlri) == [];
    }

    /** Resolves only confirmed absence or a confirmed UUID deletion; the receipts only shrink. */
    method Recover() returns (receipts: Option<seq<Owned>>, ghost at: World, ghost seen: World)
      requires Valid()
      modifies this`state, journal`record, journal`blocked, journal.disk, speaker
      ensures Valid() && old(journal.disk.history) <= journal.disk.history
      ensures speaker.orphans == old(speaker.orphans)
      ensures receipts.None? ==> state == old(state)
      ensures Evolves(old(speaker.now), at, {})
      ensures receipts.Some? ==> receipts.value == OwnedOf(state.receipts) && state.incarnation != ""
      ensures receipts.Some? ==>
        Durable() && Recovered(speaker.codec, old(journal.record.pending), at, old(state), state)
      ensures receipts.Some? && IsDelete(old(journal.record.pending)) ==>
        ReadAbsent(seen, state.incarnation, old(journal.record.pending).value.payload.route.nlri)
    {
      var o;
      receipts := None;
      o, at := Observe();
      seen := at;
      if o.None? { return; }
      var snap := journal.Snapshot();
      if snap.Blocked? { return; }
      var retained := Retain(speaker.codec, o.value, state.receipts);
      RetainSound(speaker.codec, o.value, state.receipts);
      if retained.None? { return; }
      var next := ExportState(1, o.value.incarnation, retained.value);
      RetainedFits(speaker.codec, state, snap.pending, at, speaker.now, speaker.orphans, o.value);
      RetainDropsSeen(speaker.codec, speaker.readings, state, next, at, Mark());
      var ok;
      if snap.pending.None? {
        ok := Refresh(next);
      } else {
        ok, seen := Resolve(snap.pending.value, o.value, next, at);
      }
      if ok { receipts := Some(OwnedOf(state.receipts)); }
    }

    /** Checkpoints the retained receipts when they differ from the durable state. */
    method Refresh(next: ExportState) returns (ok: bool)
      requires Valid() && !journal.blocked && journal.record.pending.None?
      requires DropsSeen(speaker.readings, state, next, Mark(), Mark())
      requires Shrinks(state, next) && Fits(speaker.codec, next, None, speaker.now, speaker.orphans)
      modifies this`state, journal`record, journal`blocked, journal.disk, speaker
      ensures Valid() && old(journal.disk.history) <= journal.disk.history
      ensures speaker.orphans == old(speaker.orphans)
      ensures if ok then state == next && Durable() else state == old(state)
    {
      var sameEmptiness: bool := *;  // an empty list may be stored as null or as []
      if state == next && (next.receipts != [] || sameEmptiness) { return true; }
      var sequence := BeginIntent(CHECKPOINT, Checkpoint(next));
      if sequence.None? { return false; }
      ShrinkRests(speaker.codec, speaker.readings, journal.record, next, Mark() - 1, Mark());
      ok := CommitState(sequence.value, next, {});
    }

    method Resolve(pending: Intent<Payload>, o: Observation, next: ExportState, ghost at: World)
      returns (ok: bool, ghost seen: World)
      requires Valid() && !journal.blocked && journal.record.pending == Some(pending)
      requires Evolves(at, speaker.now, {}) && o == Observation(at.incarnation, at.paths)
      requires Retain(speaker.codec, o, state.receipts).Some?
      requires next == ExportState(1, o.incarnation, Retain(speaker.codec, o, state.receipts).value)
      requires RibReading(Mark(), at) in speaker.readings && DropsSeen(speaker.readings, state, next, Mark(), Mark())
      requires state.incarnation != "" ==> state.incarnation in at.used
      requires Shrinks(state, next) && Fits(speaker.codec, next, None, speaker.now, speaker.orphans)
      modifies this`state, journal`record, journal`blocked, journal.disk, speaker
      ensures Valid() && old(journal.disk.history) <= journal.disk.history
      ensures speaker.orphans == old(speaker.orphans)
      ensures !ok ==> state == old(state)
      ensures ok ==> Durable() && Recovered(speaker.codec, Some(pending), at, old(state), state)
      ensures ok && IsDelete(Some(pending)) ==> ReadAbsent(seen, state.incarnation, pending.payload.route.nlri)
    {
      var p := pending.payload;
      seen := at;
      RetainSound(speaker.codec, o, state.receipts);
      if pending.operation == CHECKPOINT {
        if !p.Checkpoint? || p.state.version != 1 { return false, at; }
        if exists i :: 0 <= i < |p.state.receipts| && p.state.receipts[i] !in state.receipts { return false, at; }
        ok := CommitRetained(pending, next);
        return;
      }
      if !p.RouteIntent? { return false, at; }
      var want := DurableRoute(speaker.codec, p.route.owned.endpoint, p.incarnation, p.route.owned.pathUUID);
      if want.None? || !SamePayload(want.value, p.route) || p.incarnation == "" { return false, at; }
      var found := Matching(o.paths, p.route.nlri);
      if pending.operation == ADD {
        if p.route.owned.pathUUID != "" || found != [] { return false, at; }
        ok := CommitRetained(pending, next);
      } else if pending.operation == DELETE {
        ok, seen := ResolveDelete(pending, o, next, at);
      } else {
        return false, at;
      }
    }

    /** Resolves an interrupted checkpoint, or an Add whose path was read as absent. */
    method CommitRetained(pending: Intent<Payload>, next: ExportState) returns (ok: bool)
      requires Valid() && !journal.blocked && journal.record.pending == Some(pending)
      requires DropsSeen(speaker.readings, state, next, Mark(), Mark())
      requires IsAdd(Some(pending)) ==> VacancySeen(speaker.readings, next.incarnation, Mark(), pending.payload.route.nlri)
      requires Shrinks(state, next) && Fits(speaker.codec, next, None, speaker.now, speaker.orphans)
      modifies this`state, journal`record, journal`blocked, journal.disk, speaker`orphans
      ensures Valid() && old(journal.disk.history) <= journal.disk.history
      ensures speaker.orphans == old(speaker.orphans)
      ensures if ok then Durable() && state == next else state == old(state)
    {
      ShrinkRests(speaker.codec, speaker.readings, journal.record, next, Mark(), Mark());
      ok := CommitState(pending.sequence, next, {});
    }

    method ResolveDelete(pending: Intent<Payload>, o: Observation, next: ExportState, ghost at: World)
      returns (ok: bool, ghost seen: World)
      requires Valid() && !journal.blocked && journal.record.pending == Some(pending)
      requires pending.operation == DELETE && pending.payload.RouteIntent?
      requires Evolves(at, speaker.now, {}) && o == Observation(at.incarnation, at.paths)
      requires next.version == 1 && next.incarnation == o.incarnation
      requires RibReading(Mark(), at) in speaker.readings && DropsSeen(speaker.readings, state, next, Mark(), Mark())
      requires state.incarnation != "" ==> state.incarnation in at.used
      requires forall r | r in next.receipts :: Confirms(speaker.codec, o, r)
      requires forall r | r in state.receipts :: r in next.receipts <==> Carries(at.paths, r.nlri)
      requires Shrinks(state, next) && Fits(speaker.codec, next, None, speaker.now, speaker.orphans)
      modifies this`state, journal`record, journal`blocked, journal.disk, speaker
      ensures Valid() && old(journal.disk.history) <= journal.disk.history
      ensures speaker.orphans == old(speaker.orphans)
      ensures !ok ==> state == old(state)
      ensures ok ==> Durable() && Recovered(speaker.codec, Some(pending), at, old(state), state)
      ensures ok ==> ReadAbsent(seen, state.incarnation, pending.payload.route.nlri)
    {
      var route := pending.payload.route;
      seen := at;
      if !exists i :: 0 <= i < |state.receipts| && state.receipts[i].owned.pathUUID == route.owned.pathUUID
                      && SamePayload(state.receipts[i], route) { return false, at; }
      PendingIsLegal(speaker.codec, journal.disk.history, |journal.disk.history| - 1);
      DeleteRecovers(speaker.codec, pending, at, state, next);
      ok, seen := CompleteDelete(pending, Matching(o.paths, route.nlri) != [], next, at);
    }

    /** Withdraws a path that is still there, then forgets its receipt. */
    method CompleteDelete(pending: Intent<Payload>, present: bool, next: ExportState, ghost at: World)
      returns (ok: bool, ghost seen: World)
      requires Valid() && !journal.blocked && journal.record.pending == Some(pending)
      requires pending.operation == DELETE && pending.payload.RouteIntent? && pending.payload.route in state.receipts
      requires pending.payload.incarnation == state.incarnation && DropsSeen(speaker.readings, state, next, Mark(), Mark())
      requires RibReading(Mark(), at) in speaker.readings && state.incarnation in at.used
      requires !present ==> ReadAbsent(at, next.incarnation, pending.payload.route.nlri)
      requires Shrinks(state, next) && Fits(speaker.codec, next, None, speaker.now, speaker.orphans)
      modifies this`state, journal`record, journal`blocked, journal.disk, speaker
      ensures Valid() && old(journal.disk.history) <= journal.disk.history
      ensures speaker.orphans == old(speaker.orphans)
      ensures !ok ==> state == old(state)
      ensures ok ==> Durable() && state == next.(receipts := WithoutReceipt(next.receipts, pending.payload.route.owned.pathUUID))
      ensures ok ==> ReadAbsent(seen, next.incarnation, pending.payload.route.nlri)
    {
      var route := pending.payload.route;
      ghost var start, known := speaker.now, speaker.readings;
      seen := at;
      if present {
        if next.incarnation != pending.payload.incarnation { return false, at; }
        ok, seen := WithdrawPath(route);
        if !ok { return; }
      }
      ResolvedDeleteFits(speaker.codec, state, next, route, start, speaker.now, speaker.orphans);
      DropsSeenGrows(known, speaker.readings, state, next, Mark(), Mark());
      ok := DropReceipt(pending.sequence, next, route, seen);
    }
  }

  function OwnedOf(receipts: seq<Receipt>): (q: seq<Owned>)
    ensures |q| == |receipts| && forall i | 0 <= i < |q| :: q[i] == receipts[i].owned
  {
    seq(|receipts|, i requires 0 <= i < |receipts| => receipts[i].owned)
  }

  lemma DeleteFits(c: Codec, s: ExportState, pending: Option<Intent<Payload>>, w: World, orphans: set<string>, r: Receipt)
    requires Fits(c, s, pending, w, orphans) && Deleting(pending, r) && s.incarnation != ""
    requires s.version == 1
    ensures var next := s.(receipts := WithoutReceipt(s.receipts, r.owned.pathUUID));
            Shrinks(s, next) && Fits(c, next, None, w, orphans)
  {
  }

  lemma RetainedFits(c: Codec, s: ExportState, pending: Option<Intent<Payload>>, at: World, now: World,
                     orphans: set<string>, o: Observation)
    requires ValidState(c, s) && Fits(c, s, pending, at, orphans) && Evolves(at, now, {})
    requires o == Observation(at.incarnation, at.paths) && Retain(c, o, s.receipts).Some?
    ensures var next := ExportState(1, o.incarnation, Retain(c, o, s.receipts).value);
            Shrinks(s, next) && Fits(c, next, None, now, orphans)
  {
    RetainSound(c, o, s.receipts);
    var next := ExportState(1, o.incarnation, Retain(c, o, s.receipts).value);
    SubsequenceKeeps(c, next.receipts, s.receipts);
    if next.receipts != [] {
      var r := next.receipts[0];
      assert r in next.receipts && r in s.receipts;
    }
    FitsStable(c, s, pending, at, now, orphans);
  }

  lemma DistinctRoutes(c: Codec, q: seq<Receipt>, x: Receipt, y: Receipt)
    requires Distinct(c, q) && x in q && y in q && x != y
    ensures x.nlri != y.nlri
  {
    var i :| 0 <= i < |q| && q[i] == x;
    var j :| 0 <= j < |q| && q[j] == y;
  }

  lemma WithoutShrinks(s: ExportState, next: ExportState, id: string)
    requires Shrinks(s, next)
    ensures Shrinks(s, next.(receipts := WithoutReceipt(next.receipts, id)))
  {
    SubsequenceTransitive(WithoutReceipt(next.receipts, id), next.receipts, s.receipts);
  }

  lemma DeleteRecovers(c: Codec, pending: Intent<Payload>, at: World, s: ExportState, next: ExportState)
    requires ValidState(c, s) && Shrinks(s, next) && next.incarnation == at.incarnation
    requires pending.operation == DELETE && pending.payload.RouteIntent? && pending.payload.route in s.receipts
    requires forall r | r in s.receipts :: r in next.receipts <==> Carries(at.paths, r.nlri)
    requires forall r | r in next.receipts :: Confirms(c, Observation(at.incarnation, at.paths), r)
    ensures
      var rest := next.(receipts := WithoutReceipt(next.receipts, pending.payload.route.owned.pathUUID));
      Recovered(c, Some(pending), at, s, rest)
  {
    WithoutShrinks(s, next, pending.payload.route.owned.pathUUID);
  }

  ghost predicate IsDelete(intent: Option<Intent<Payload>>)
  {
    intent.Some? && intent.value.operation == DELETE && intent.value.payload.RouteIntent?
  }

  // ---------------------------------------------------------------- what each step rests on

  lemma BeginRests(c: Codec, readings: set<RibReading>, a: ExportRecord, b: ExportRecord, i: int)
    requires BeginStep(a, b)
    requires IsAdd(b.pending) ==> VacancySeen(readings, StateOf(a).incarnation, i, b.pending.value.payload.route.nlri)
    ensures Rests(c, readings, a, b, i)
  {
    var first := i - 1;
    forall r ensures DropSeen(readings, StateOf(a), StateOf(b), first, i, r) { }
    forall r ensures GainSeen(c, readings, StateOf(a), StateOf(b), i, r) { }
  }

  lemma AddRests(c: Codec, readings: set<RibReading>, a: ExportRecord, next: ExportState, claimed: Receipt, x: RibReading)
    requires a.pending.Some? && next == StateOf(a).(receipts := StateOf(a).receipts + [claimed])
    requires forall r | r in StateOf(a).receipts :: UUID(c, r) != UUID(c, claimed)
    requires x in readings && Confirms(c, Observation(x.world.incarnation, x.world.paths), claimed)
    ensures Rests(c, readings, a, Acknowledged(a, next), x.mark)
  {
    var b, first := Acknowledged(a, next), x.mark - 1;
    forall r ensures DropSeen(readings, StateOf(a), StateOf(b), first, x.mark, r) { }
    forall r ensures GainSeen(c, readings, StateOf(a), StateOf(b), x.mark, r) { }
    assert claimed in next.receipts;
    forall q | Subsequence(q, StateOf(a).receipts) ensures q != next.receipts { SubsequenceMembers(q, StateOf(a).receipts); }
  }

  /** A commit that only drops what was missed. An interrupted Add also needs its own absence. */
  lemma ShrinkRests(c: Codec, readings: set<RibReading>, a: ExportRecord, next: ExportState, mark: int, i: int)
    requires a.pending.Some? && Subsequence(next.receipts, StateOf(a).receipts)
    requires i - 1 <= mark <= i && DropsSeen(readings, StateOf(a), next, mark, mark)
    requires IsAdd(a.pending) ==> VacancySeen(readings, next.incarnation, i, a.pending.value.payload.route.nlri)
    ensures Rests(c, readings, a, Acknowledged(a, next), i)
  {
    var b, first := Acknowledged(a, next), i - 1;
    SubsequenceMembers(next.receipts, StateOf(a).receipts);
    forall r ensures DropSeen(readings, StateOf(a), StateOf(b), first, i, r) {
      assert DropSeen(readings, StateOf(a), next, mark, mark, r);
    }
    forall r ensures GainSeen(c, readings, StateOf(a), StateOf(b), i, r) { }
  }

  lemma DropsNothing(readings: set<RibReading>, s: ExportState, mark: int)
    ensures DropsSeen(readings, s, s, mark, mark)
  {
    forall r ensures DropSeen(readings, s, s, mark, mark, r) { }
  }

  lemma DropsSeenGrows(readings: set<RibReading>, more: set<RibReading>, s: ExportState, next: ExportState, first: int, last: int)
    requires DropsSeen(readings, s, next, first, last) && readings <= more
    ensures DropsSeen(more, s, next, first, last)
  {
    forall r ensures DropSeen(more, s, next, first, last, r) { assert DropSeen(readings, s, next, first, last, r); }
  }

  /** Retaining drops exactly what the reading misses. */
  lemma RetainDropsSeen(c: Codec, readings: set<RibReading>, s: ExportState, next: ExportState, at: World, mark: nat)
    requires RibReading(mark, at) in readings && next.incarnation == at.incarnation
    requires ValidState(c, s) && (s.incarnation != "" ==> s.incarnation in at.used)
    requires forall r | r in s.receipts :: r in next.receipts <==> Carries(at.paths, r.nlri)
    ensures DropsSeen(readings, s, next, mark, mark)
  {
    forall r ensures DropSeen(readings, s, next, mark, mark, r) {
      if r in s.receipts && r !in next.receipts {
        var i :| 0 <= i < |s.receipts| && s.receipts[i] == r;
        assert ValidReceipt(c, s.incarnation, s.receipts[i]) && Misses(RibReading(mark, at), next.incarnation, r);
      }
    }
  }

  /** The commit of a deletion: besides what was missed before, only the receipt just read as absent goes. */
  lemma DeleteRests(c: Codec, readings: set<RibReading>, a: ExportRecord, next: ExportState, rest: ExportState, route: Receipt,
                    x: RibReading)
    requires a.pending.Some? && !IsAdd(a.pending) && ValidState(c, StateOf(a)) && route in StateOf(a).receipts
    requires Subsequence(next.receipts, StateOf(a).receipts) && DropsSeen(readings, StateOf(a), next, x.mark, x.mark)
    requires rest == next.(receipts := WithoutReceipt(next.receipts, route.owned.pathUUID))
    requires x in readings && Misses(x, next.incarnation, route)
    ensures Rests(c, readings, a, Acknowledged(a, rest), x.mark)
  {
    var s := StateOf(a);
    SubsequenceMembers(next.receipts, s.receipts);
    SubsequenceTransitive(rest.receipts, next.receipts, s.receipts);
    forall r ensures DropSeen(readings, s, rest, x.mark, x.mark, r) {
      assert DropSeen(readings, s, next, x.mark, x.mark, r);
      if r in s.receipts && r.owned.pathUUID == route.owned.pathUUID { DistinctUUIDs(c, s.receipts, r, route); }
    }
    ShrinkRests(c, readings, a, rest, x.mark, x.mark);
  }

  lemma DistinctUUIDs(c: Codec, q: seq<Receipt>, x: Receipt, y: Receipt)
    requires Distinct(c, q) && x in q && y in q && x.owned.pathUUID == y.owned.pathUUID
    ensures x == y
  {
    var i :| 0 <= i < |q| && q[i] == x;
    var j :| 0 <= j < |q| && q[j] == y;
  }

  lemma ResolvedDeleteFits(c: Codec, s: ExportState, next: ExportState, route: Receipt, v: World, w: World,
                           orphans: set<string>)
    requires ValidState(c, s) && Shrinks(s, next) && Fits(c, next, None, v, orphans) && route in s.receipts
    requires Evolves(v, w, {route.nlri})
    ensures var rest := next.(receipts := WithoutReceipt(next.receipts, route.owned.pathUUID));
            Shrinks(s, rest) && Fits(c, rest, None, w, orphans)
  {
    var rest := WithoutReceipt(next.receipts, route.owned.pathUUID);
    WithoutShrinks(s, next, route.owned.pathUUID);
    SubsequenceKeeps(c, next.receipts, s.receipts);
    forall x | x in rest ensures x in next.receipts && x.nlri != route.nlri {
      DistinctRoutes(c, s.receipts, x, route);
    }
  }

  datatype ExportCall = Reopen(faulty: bool) | CallRecover | CallAdd(ep: LocalEndpoint, gateOpen: bool)
                      | CallDelete(owned: Owned)

  /** Any calls in any order, each failing or crashing wherever it may, with reopens in between:
      the history stays legal, so `ReceiptProvenance` and `EveryStateValid` apply to every record;
      every receipt ever held was confirmed by a reading and every receipt dropped was missed by one;
      and a UUID whose acknowledgement was lost is never a receipt. */
  method AnyExportRun(disk: Disk<ExportState, Payload>, speaker: Speaker, domain: Domain, calls: seq<ExportCall>)
    requires SiteValid(disk, speaker)
    modifies disk, speaker
    ensures SiteValid(disk, speaker)
    ensures old(disk.history) <= disk.history && old(speaker.orphans) <= speaker.orphans
    ensures disk.files.Stored? ==>
      forall r | r in StateOf(disk.files.record).receipts ::
        UUID(speaker.codec, r).Some? && UUID(speaker.codec, r).value !in speaker.orphans
    ensures forall k, r :: GainFounded(speaker.codec, speaker.readings, disk.history, k, r)
    ensures forall k, m, r :: DropFounded(speaker.readings, disk.history, k, m, r)
  {
    var e: ExportRecovery? := null;
    for k := 0 to |calls|
      invariant SiteValid(disk, speaker)
      invariant old(disk.history) <= disk.history && old(speaker.orphans) <= speaker.orphans
      invariant e != null ==> fresh(e) && fresh(e.journal) && e.journal.disk == disk && e.speaker == speaker && e.Valid()
    {
      match calls[k]
      case Reopen(faulty) => var result; e, result := ExportRecovery.Open(disk, speaker, domain, faulty);
      case CallRecover => if e != null { var _, _, _ := e.Recover(); }
      case CallAdd(ep, gateOpen) => if e != null { var _, _ := e.Add(ep, gateOpen); }
      case CallDelete(owned) => if e != null { var _, _ := e.Delete(owned); }
    }
    forall k, r ensures GainFounded(speaker.codec, speaker.readings, disk.history, k, r) {
      if k >= 0 { GainProvenance(speaker.codec, speaker.readings, disk.history, k, r); }
    }
    forall k, m, r ensures DropFounded(speaker.readings, disk.history, k, m, r) {
      if k >= 0 && m >= 0 { DropProvenance(speaker.codec, speaker.readings, disk.history, k, m, r); }
    }
  }

  lemma AddFits(c: Codec, s: ExportState, pending: Option<Intent<Payload>>, at: World, now: World,
                orphans: set<string>, claimed: Receipt)
    requires Fits(c, s, pending, at, orphans) && Evolves(at, now, {})
    requires pending.Some? && pending.value.operation == ADD
    requires at.incarnation == s.incarnation && Carries(at.paths, claimed.nlri)
    requires UUID(c, claimed).Some? && UUID(c, claimed).value in now.handles
    requires now.handles[UUID(c, claimed).value] == claimed.nlri
    ensures Fits(c, s.(receipts := s.receipts + [claimed]), None, now, orphans - {UUID(c, claimed).value})
  {
    FitsStable(c, s, pending, at, now, orphans);
    var next := s.(receipts := s.receipts + [claimed]);
    forall r | r in next.receipts ensures r in s.receipts || r == claimed {}
  }
}

/** The endpoint exporter: recovery, resynchronization, planning and application in one pass. */
module EndpointExport {
  import opened Basics
  import opened OwnershipJournal
  import opened Endpoints
  import opened SpeakerEnvironment
  import opened ExportReceipts
  import opened ExportRecoveryModel
  import opened RouteReconciliation

  lemma MirrorAdd(c: Codec, applied: Applied, q: seq<Owned>, key: string, owned: Owned)
    requires ClaimsByKey(c, applied, q) && key !in applied && owned.pathUUID != ""
    requires c.build(owned.endpoint).Some? && c.build(owned.endpoint).value.nlri.text == key
    ensures ClaimsByKey(c, applied[key := owned], q + [owned])
  {
    var after, all := applied[key := owned], q + [owned];
    assert owned in all;
    forall k | k in after ensures after[k] in all { assert k != key ==> applied[k] in q; }
  }

  lemma MirrorDelete(c: Codec, applied: Applied, q: seq<Owned>, key: string, rest: seq<Owned>)
    requires ClaimsByKey(c, applied, q) && key in applied
    requires forall x :: x in rest <==> x in q && x != applied[key]
    ensures ClaimsByKey(c, Without(applied, key), rest)
  {
  }

  lemma OwnedIn(receipts: seq<Receipt>, r: Receipt)
    requires r in receipts
    ensures r.owned in OwnedOf(receipts)
  {
    var k :| 0 <= k < |receipts| && receipts[k] == r;
    assert OwnedOf(receipts)[k] == r.owned;
  }

  lemma OwnedFrom(receipts: seq<Receipt>, owned: Owned) returns (r: Receipt)
    requires owned in OwnedOf(receipts)
    ensures r in receipts && r.owned == owned
  {
    var k :| 0 <= k < |receipts| && OwnedOf(receipts)[k] == owned;
    r := receipts[k];
  }

  lemma RestOwned(c: Codec, receipts: seq<Receipt>, owned: Owned)
    requires Distinct(c, receipts) && owned in OwnedOf(receipts)
    ensures forall x :: x in OwnedOf(WithoutReceipt(receipts, owned.pathUUID)) <==> x in OwnedOf(receipts) && x != owned
  {
    var rest := WithoutReceipt(receipts, owned.pathUUID);
    var r := OwnedFrom(receipts, owned);
    forall x ensures x in OwnedOf(rest) <==> x in OwnedOf(receipts) && x != owned {
      if x in OwnedOf(rest) {
        var y := OwnedFrom(rest, x);
        OwnedIn(receipts, y);
      } else if x in OwnedOf(receipts) && x != owned {
        var y := OwnedFrom(receipts, x);
        if y.owned.pathUUID == owned.pathUUID { DistinctUUIDs(c, receipts, r, y); }
        OwnedIn(rest, y);
      }
    }
  }

  /** What an exporter does: it starts a pass, re-attests the speaker, asks the readiness gate and perhaps the
      continuity check behind it, compares a reading of the RIB with the applied routes, sends a request. */
  datatype Step = Pass(initialized: bool, applied: Applied) | Continuity(ok: bool)
                | Gate(ready: bool, continues: Option<bool>) | Compared(paths: seq<RibPath>, applied: Applied)
                | Sent(delta: Delta)

  predicate AllVisible(c: Codec, paths: seq<RibPath>, applied: Applied)
  {
    forall key | key in applied ::
      exists i :: 0 <= i < |paths| && paths[i].local && RibPathMatches(c, paths[i], applied[key].endpoint)
  }

  /** Every applied route is shown by a local path. */
  ghost predicate AllShown(c: Codec, paths: seq<RibPath>, applied: Applied)
  {
    forall key | key in applied :: exists i :: 0 <= i < |paths| && paths[i].local && Shows(c, paths[i], applied[key].endpoint)
  }

  lemma VisibleIffShown(c: Codec, paths: seq<RibPath>, applied: Applied)
    ensures AllVisible(c, paths, applied) <==> AllShown(c, paths, applied)
  {
    forall i, key | 0 <= i < |paths| && key in applied
      ensures RibPathMatches(c, paths[i], applied[key].endpoint) <==> Shows(c, paths[i], applied[key].endpoint)
    {
    }
  }

  ghost predicate Found(c: Codec, e: Step)
  {
    e.Compared? && AllShown(c, e.paths, e.applied)
  }

  ghost predicate Missed(c: Codec, e: Step)
  {
    e.Compared? && !AllShown(c, e.paths, e.applied)
  }

  ghost predicate ComparedAt(c: Codec, trail: seq<Step>, j: int)
  {
    0 <= j < |trail| && Found(c, trail[j]) && forall k | j < k < |trail| :: !trail[k].Pass? && !trail[k].Compared?
  }

  /** The comparison of the current pass found every applied route. */
  ghost predicate Compares(c: Codec, trail: seq<Step>)
  {
    exists j :: ComparedAt(c, trail, j)
  }

  ghost predicate HeldAt(trail: seq<Step>, j: int)
  {
    && 0 <= j < |trail| && trail[j].Pass? && trail[j].applied != map[]
    && forall k | j < k < |trail| :: !trail[k].Pass?
  }

  /** Routes were applied when the current pass began. */
  ghost predicate Held(trail: seq<Step>)
  {
    exists j :: HeldAt(trail, j)
  }

  ghost function Ready(continuity: bool): Step
  {
    Gate(true, if continuity then Some(true) else None)
  }

  /** The last thing done was to find the speaker ready and, where that is checked, continuous. */
  ghost predicate Attested(continuity: bool, trail: seq<Step>)
  {
    trail != [] && trail[|trail| - 1] == Ready(continuity)
  }

  /** The last thing done was to begin a pass of an initialized exporter. */
  ghost predicate Reopened(trail: seq<Step>)
  {
    trail != [] && trail[|trail| - 1].Pass? && trail[|trail| - 1].initialized
  }

  /** The steps that fence an exporter. A route that has disappeared always does. Without durable recovery
      so do a failed re-attestation of an initialized exporter; a closed gate behind which continuity is not
      confirmed, before planning when routes are applied and before a request always; and a continuity that
      fails behind an open gate before a request. */
  ghost predicate Loses(c: Codec, durable: bool, before: seq<Step>, e: Step)
  {
    || Missed(c, e)
    || (!durable && e == Continuity(false) && Reopened(before))
    || (!durable && e.Gate? && !e.ready && e.continues != Some(true) && !Compares(c, before) && Held(before))
    || (!durable && e.Gate? && !e.ready && e.continues != Some(true) && Compares(c, before))
    || (!durable && e == Gate(true, Some(false)) && Compares(c, before))
  }

  /** A request is sent only by a pass that found every applied route, right after the checks. A pass compares
      once, right after the checks. An initialized exporter re-attests the speaker before it asks the gate. */
  ghost predicate InOrder(c: Codec, continuity: bool, before: seq<Step>, e: Step)
  {
    match e
    case Pass(_, _) => true
    case Continuity(_) => continuity && Reopened(before)
    case Gate(ready, continues) => (if ready then continues.Some? == continuity else continues.Some? ==> continuity)
                                   && !(continuity && Reopened(before))
    case Compared(_, _) => Attested(continuity, before) && !Compares(c, before)
    case Sent(_) => Attested(continuity, before) && Compares(c, before)
  }

  /** Nothing ever follows a step that fences. */
  ghost predicate StepOkAt(c: Codec, durable: bool, continuity: bool, trail: seq<Step>, i: int)
  {
    0 <= i < |trail| ==>
      InOrder(c, continuity, trail[..i], trail[i]) && (Loses(c, durable, trail[..i], trail[i]) ==> i == |trail| - 1)
  }

  ghost predicate Fenced(c: Codec, durable: bool, trail: seq<Step>)
  {
    trail != [] && Loses(c, durable, trail[..|trail| - 1], trail[|trail| - 1])
  }

  ghost predicate TrailOk(c: Codec, durable: bool, continuity: bool, trail: seq<Step>)
  {
    forall i :: StepOkAt(c, durable, continuity, trail, i)
  }

  lemma TrailExtends(c: Codec, durable: bool, continuity: bool, trail: seq<Step>, e: Step)
    requires TrailOk(c, durable, continuity, trail) && !Fenced(c, durable, trail)
    requires InOrder(c, continuity, trail, e)
    ensures TrailOk(c, durable, continuity, trail + [e]) && (Fenced(c, durable, trail + [e]) <==> Loses(c, durable, trail, e))
  {
    var more := trail + [e];
    assert more[..|trail|] == trail;
    forall i ensures StepOkAt(c, durable, continuity, more, i) {
      assert StepOkAt(c, durable, continuity, trail, i);
      if 0 <= i < |trail| { assert more[..i] == trail[..i]; }
    }
  }

  lemma ComparesExtends(c: Codec, trail: seq<Step>, e: Step)
    ensures Compares(c, trail + [e]) <==> Found(c, e) || (Compares(c, trail) && !e.Pass? && !e.Compared?)
  {
    var more := trail + [e];
    if Found(c, e) { assert ComparedAt(c, more, |trail|); }
    if j :| ComparedAt(c, trail, j) && !e.Pass? && !e.Compared? { assert ComparedAt(c, more, j); }
    if j :| ComparedAt(c, more, j) && !Found(c, e) {
      assert more[|trail|] == e;
      forall k | j < k < |trail| ensures !trail[k].Pass? && !trail[k].Compared? { assert more[k] == trail[k]; }
      assert ComparedAt(c, trail, j);
    }
  }

  lemma HeldExtends(trail: seq<Step>, e: Step)
    ensures Held(trail + [e]) <==> if e.Pass? then e.applied != map[] else Held(trail)
  {
    var more := trail + [e];
    if e.Pass? && e.applied != map[] { assert HeldAt(more, |trail|); }
    if j :| HeldAt(trail, j) && !e.Pass? { assert HeldAt(more, j); }
    if j :| HeldAt(more, j) {
      assert more[|trail|] == e;
      if j < |trail| {
        forall k | j < k < |trail| ensures !trail[k].Pass? { assert more[k] == trail[k]; }
        assert HeldAt(trail, j);
      }
    }
  }

  lemma {:induction false} ComparesOn(c: Codec, durable: bool, continuity: bool, trail: seq<Step>, i: nat, n: nat)
    requires TrailOk(c, durable, continuity, trail) && i <= n < |trail| && Compares(c, trail[..i])
    requires forall k | i <= k < n :: !trail[k].Pass?
    ensures Compares(c, trail[..n])
  {
    if i < n {
      ComparesOn(c, durable, continuity, trail, i, n - 1);
      assert StepOkAt(c, durable, continuity, trail, n - 1) && trail[..n] == trail[..n - 1] + [trail[n - 1]];
      ComparesExtends(c, trail[..n - 1], trail[n - 1]);
    }
  }

  /** A pass that misses an applied route has sent nothing: after every request a new pass was begun. */
  lemma MissedPassSentNothing(c: Codec, durable: bool, continuity: bool, trail: seq<Step>, i: nat)
    requires TrailOk(c, durable, continuity, trail) && trail != [] && Missed(c, trail[|trail| - 1])
    requires i < |trail| && trail[i].Sent?
    ensures exists k :: i < k < |trail| && trail[k].Pass?
  {
    assert StepOkAt(c, durable, continuity, trail, i) && StepOkAt(c, durable, continuity, trail, |trail| - 1);
    if forall k | i <= k < |trail| - 1 :: !trail[k].Pass? { ComparesOn(c, durable, continuity, trail, i, |trail| - 1); }
  }

  /** The steps of an executed plan: the checks, then the request, delta by delta. */
  ghost function Requests(continuity: bool, plan: seq<Delta>): seq<Step>
  {
    if plan == [] then []
    else Requests(continuity, plan[..|plan| - 1]) + [Ready(continuity), Sent(plan[|plan| - 1])]
  }

  lemma RequestsNext(continuity: bool, start: seq<Step>, plan: seq<Delta>, i: nat)
    requires i < |plan|
    ensures plan[i..] != [] && plan[i..][0] == plan[i] && plan[i..][1..] == plan[i + 1..]
    ensures start + Requests(continuity, plan[..i]) + [Ready(continuity), Sent(plan[i])]
         == start + Requests(continuity, plan[..i + 1])
  {
    assert plan[..i + 1][..i] == plan[..i];
  }

  lemma PlanStarts(continuity: bool, start: seq<Step>, plan: seq<Delta>)
    ensures plan[0..] == plan && start + Requests(continuity, plan[..0]) == start
  {
  }

  lemma PlanEnds(continuity: bool, plan: seq<Delta>)
    ensures plan[|plan|..] == [] && Requests(continuity, plan[..|plan|]) == Requests(continuity, plan)
  {
    assert plan[..|plan|] == plan;
  }

  /** What a pass reads, what is applied then and what it plans. */
  datatype View = View(paths: seq<RibPath>, held: Applied, plan: seq<Delta>)

  /** The checks before planning, all passed. */
  ghost function Checks(continuity: bool, initialized: bool): seq<Step>
  {
    if continuity && initialized then [Continuity(true), Ready(continuity)] else [Ready(continuity)]
  }

  /** The steps of a pass up to its plan. */
  ghost function Opening(continuity: bool, initialized: bool, applied: Applied, v: View): seq<Step>
  {
    [Pass(initialized, applied)] + Checks(continuity, initialized) + [Compared(v.paths, v.held)]
  }

  lemma OpeningEnds(continuity: bool, initialized: bool, applied: Applied, v: View, before: seq<Step>)
    ensures var checked := before + [Pass(initialized, applied)] + Checks(continuity, initialized);
      checked + [Compared(v.paths, v.held)] == before + Opening(continuity, initialized, applied, v)
  {
  }

  /** The pass read, planned and then sent every delta of its plan, in order, each right after the checks. */
  ghost predicate Completed(c: Codec, continuity: bool, initialized: bool, applied: Applied,
                            desired: seq<LocalEndpoint>, before: seq<Step>, after: seq<Step>, v: View)
  {
    && AllShown(c, v.paths, v.held) && PlanOk(c, v.held, desired, v.plan)
    && after == before + Opening(continuity, initialized, applied, v) + Requests(continuity, v.plan)
  }

  /** The pass stopped at delta `i` of its plan: every earlier delta was sent, no later one. */
  ghost predicate StoppedAt(continuity: bool, start: seq<Step>, plan: seq<Delta>, after: seq<Step>, i: int)
  {
    && 0 <= i < |plan|
    && var sent := start + Requests(continuity, plan[..i]);
       || (|after| == |sent| + 1 && sent < after && after[|sent|].Gate?)
       || after == sent + [Ready(continuity), Sent(plan[i])]
  }

  /** The pass sent nothing, or stopped within its plan. */
  ghost predicate Stopped(c: Codec, continuity: bool, initialized: bool, applied: Applied,
                          desired: seq<LocalEndpoint>, before: seq<Step>, after: seq<Step>, v: View, i: int)
  {
    && AllShown(c, v.paths, v.held) && PlanOk(c, v.held, desired, v.plan)
    && StoppedAt(continuity, before + Opening(continuity, initialized, applied, v), v.plan, after, i)
  }

  ghost predicate Silent(before: seq<Step>, after: seq<Step>)
  {
    before <= after && forall k | |before| <= k < |after| :: !after[k].Sent?
  }

  lemma SilentThen(a: seq<Step>, b: seq<Step>, c: seq<Step>)
    requires Silent(a, b) && Silent(b, c)
    ensures Silent(a, c)
  {
    forall k | |a| <= k < |c| ensures !c[k].Sent? { if k < |b| { assert c[k] == b[k]; } }
  }

  class EndpointExporter {
    const speaker: Speaker
    const recovery: ExportRecovery?
    const reconciler: RouteReconciler
    const continuity: bool
    var initialized: bool
    var blocked: bool
    ghost var trail: seq<Step>

    /** The objects an exporter works on. */
    ghost function Parts(): set<object>
    {
      {speaker, reconciler} + (if recovery == null then {} else {recovery, recovery.journal, recovery.journal.disk})
    }

    ghost function Repr(): set<object>
    {
      {this} + Parts()
    }

    /** The applied routes are exactly the receipts this process holds, endpoint and UUID. */
    ghost predicate Mirrored()
      requires recovery != null
      reads reconciler, recovery
    {
      ClaimsByKey(speaker.codec, reconciler.applied, OwnedOf(recovery.state.receipts))
    }

    /** Nothing is pending on disk. */
    ghost predicate Settled()
      reads Parts()
    {
      recovery != null ==> recovery.Durable()
    }

    /** The applied routes are exactly the receipts on disk, endpoint and UUID, with nothing pending. */
    ghost predicate MirrorsDisk()
      reads Parts()
    {
      recovery != null ==>
        var files := recovery.journal.disk.files;
        && files.Stored? && files.record.pending.None?
        && ClaimsByKey(speaker.codec, reconciler.applied, OwnedOf(StateOf(files.record).receipts))
    }

    /** In recovery mode the mirror holds whenever the reconciler may apply anything at all. */
    ghost predicate Valid()
      reads Parts()
    {
      && reconciler.Valid() && speaker.Valid() && reconciler.codec == speaker.codec
      && speaker.codec.parseUUID("").None?
      && (recovery != null ==>
            recovery.speaker == speaker && recovery.Valid() && (reconciler.synchronized ==> Mirrored()))
    }

    constructor (speaker: Speaker, recovery: ExportRecovery?, continuity: bool)
      requires speaker.Valid() && speaker.codec.parseUUID("").None?
      requires recovery != null ==> recovery.Valid() && recovery.speaker == speaker
      ensures Valid() && Orderly() && !initialized && !blocked && fresh(reconciler)
      ensures this.speaker == speaker && this.recovery == recovery && trail == []
    {
      this.speaker, this.recovery, this.continuity := speaker, recovery, continuity;
      reconciler := new RouteReconciler(speaker.codec);
      initialized, blocked, trail := false, false, [];
    }

    /** What was done so far was in order, and the exporter is fenced exactly when its last step fences. */
    ghost predicate Orderly()
      reads this
    {
      && TrailOk(speaker.codec, recovery != null, continuity, trail)
      && (blocked <==> Fenced(speaker.codec, recovery != null, trail))
    }

    /** The pass found every applied route and may send requests. */
    ghost predicate InPass()
      reads this
    {
      Orderly() && Compares(speaker.codec, trail) && !blocked
    }

    /** Appends one step to the trail; whether it fences is already recorded. */
    ghost method Note(e: Step)
      requires TrailOk(speaker.codec, recovery != null, continuity, trail) && !Fenced(speaker.codec, recovery != null, trail)
      requires InOrder(speaker.codec, continuity, trail, e)
      requires blocked <==> Loses(speaker.codec, recovery != null, trail, e)
      modifies this`trail
      ensures Orderly() && trail == old(trail) + [e]
      ensures Compares(speaker.codec, trail)
              <==> Found(speaker.codec, e) || (old(Compares(speaker.codec, trail)) && !e.Pass? && !e.Compared?)
    {
      TrailExtends(speaker.codec, recovery != null, continuity, trail, e);
      ComparesExtends(speaker.codec, trail, e);
      trail := trail + [e];
    }

    /** A complete RIB snapshot, or None. */
    method ReadRIB() returns (paths: Option<seq<RibPath>>)
      requires Valid()
      modifies speaker`now, speaker`readings
      ensures Valid()
    {
      if recovery != null {
        var o, at := recovery.Observe();
        paths := if o.Some? then Some(o.value.paths) else None;
      } else {
        speaker.Drift();
        var available: bool := *;
        paths := if available then Some(speaker.now.paths) else None;
      }
    }

    method Resynchronize() returns (ok: bool)
      requires Valid()
      modifies Repr()
      ensures Valid() && blocked == old(blocked) && trail == old(trail)
      ensures ok && recovery != null ==> reconciler.synchronized
      ensures ok ==> Settled()
      ensures !ok ==> initialized == old(initialized)
      ensures fresh(reconciler.pending - old(reconciler.pending))
    {
      var cancelled: bool := *;
      if recovery != null {
        var receipts, _, _ := recovery.Recover();
        if receipts.None? { return false; }
        reconciler.synchronized := false;
        var paths := ReadRIB();
        ok := reconciler.ResyncDurable(paths, cancelled, receipts.value);
        if ok { initialized := true; }
      } else if !initialized {
        var paths := ReadRIB();
        ok := reconciler.Resync(paths, cancelled, []);
        if ok { initialized := true; }
      } else {
        ok := true;
      }
    }

    /** Whether every applied route is still visible as a local path; a missing one fences the exporter. */
    method PathsPresent(paths: seq<RibPath>) returns (present: bool)
      requires Orderly() && !blocked && !InPass() && Attested(continuity, trail)
      modifies this`blocked, this`trail
      ensures Orderly() && trail == old(trail) + [Compared(paths, reconciler.applied)]
      ensures present <==> AllShown(speaker.codec, paths, reconciler.applied)
      ensures (blocked <==> !present) && (present ==> InPass())
    {
      present := AllVisible(speaker.codec, paths, reconciler.applied);
      VisibleIffShown(speaker.codec, paths, reconciler.applied);
      if !present { blocked := true; }
      Note(Compared(paths, reconciler.applied));
    }

    /** One delta: the request goes to the durable exporter when there is one. */
    method ApplyDelta(op: RouteOperation) returns (ok: bool, ghost id: string)
      requires Valid()
      requires op.says.action == Advertise ==> Advertised(speaker.codec, op.says.endpoint, op.says.wireKey)
      requires Attested(continuity, trail) && InPass()
      modifies Repr() - {this}, this`trail
      ensures trail == old(trail) + [Sent(op.says)] || (!ok && trail == old(trail))
      ensures InPass() && blocked == old(blocked) && initialized == old(initialized)
      ensures Valid() && fresh(reconciler.pending - old(reconciler.pending))
      ensures reconciler.foreign == old(reconciler.foreign)
      ensures !ok ==> reconciler.applied == old(reconciler.applied)
      ensures ok && old(Settled()) ==> Settled()
      ensures ok ==> reconciler.synchronized && reconciler.applied == Execute(old(reconciler.applied), op.says, id)
    {
      var cancelled: bool := *;
      if !reconciler.RequestOf(op, cancelled).NoRequest? { Note(Sent(op.says)); }
      ok, id := Transmit(op, cancelled);
    }

    /** Makes the request of a delta, if there is one, and records its outcome. */
    method Transmit(op: RouteOperation, cancelled: bool) returns (ok: bool, ghost id: string)
      requires Valid()
      requires op.says.action == Advertise ==> Advertised(speaker.codec, op.says.endpoint, op.says.wireKey)
      modifies Repr() - {this}
      ensures Valid() && fresh(reconciler.pending - old(reconciler.pending))
      ensures reconciler.foreign == old(reconciler.foreign)
      ensures !ok ==> reconciler.applied == old(reconciler.applied)
      ensures ok && old(Settled()) ==> Settled()
      ensures ok ==> !old(reconciler.RequestOf(op, cancelled)).NoRequest? && reconciler.synchronized
                     && reconciler.applied == Execute(old(reconciler.applied), op.says, id)
    {
      var outcome: Outcome := *;
      var request := reconciler.RequestOf(op, cancelled);
      if recovery != null && !request.NoRequest? { outcome := Forward(op, request); }
      ok := reconciler.Apply(op, cancelled, outcome);
      id := if outcome.ApiOk? then outcome.id else "";
    }

    /** Hands a request to the durable exporter. A success leaves the receipts as the executed delta. */
    method Forward(op: RouteOperation, request: Request) returns (outcome: Outcome)
      requires Valid() && recovery != null && !request.NoRequest?
      requires exists cancelled :: request == reconciler.RequestOf(op, cancelled)
      requires op.says.action == Advertise ==> Advertised(speaker.codec, op.says.endpoint, op.says.wireKey)
      modifies recovery`state, recovery.journal`record, recovery.journal`blocked, recovery.journal.disk, speaker
      ensures recovery.Valid() && speaker.Valid()
      ensures outcome.ApiOk? ==> recovery.Durable() && (request.AddRequest? ==> outcome.id != "")
      ensures
        ClaimsByKey(speaker.codec,
                    if outcome.ApiOk? then Execute(reconciler.applied, op.says, outcome.id) else reconciler.applied,
                    OwnedOf(recovery.state.receipts))
    {
      ghost var receipts := recovery.state.receipts;
      if request.AddRequest? {
        var gateOpen: bool := *;
        var id, _ := recovery.Add(request.endpoint, gateOpen);
        if id.None? { return ApiError; }
        MirrorAfterAdd(receipts, op, id.value);
        return ApiOk(id.value);
      }
      var done, _ := recovery.Delete(request.owned);
      if !done { return ApiError; }
      MirrorAfterDelete(receipts, op, request.owned);
      return ApiOk("");
    }

    lemma MirrorAfterAdd(receipts: seq<Receipt>, op: RouteOperation, id: string)
      requires recovery != null && recovery.Valid() && speaker == recovery.speaker
      requires speaker.codec.parseUUID("").None?
      requires ClaimsByKey(speaker.codec, reconciler.applied, OwnedOf(receipts)) && op.says.wireKey !in reconciler.applied
      requires Advertised(speaker.codec, op.says.endpoint, op.says.wireKey)
      requires |recovery.state.receipts| == |receipts| + 1 && recovery.state.receipts[..|receipts|] == receipts
      requires recovery.state.receipts[|receipts|].owned == Owned(op.says.endpoint, id)
      ensures id != ""
      ensures ClaimsByKey(speaker.codec, reconciler.applied[op.says.wireKey := Owned(op.says.endpoint, id)],
                          OwnedOf(recovery.state.receipts))
    {
      var owned := Owned(op.says.endpoint, id);
      assert ValidReceipt(speaker.codec, recovery.state.incarnation, recovery.state.receipts[|receipts|]);
      assert OwnedOf(recovery.state.receipts) == OwnedOf(receipts) + [owned] by {
        assert recovery.state.receipts == receipts + [recovery.state.receipts[|receipts|]];
      }
      MirrorAdd(speaker.codec, reconciler.applied, OwnedOf(receipts), op.says.wireKey, owned);
    }

    lemma MirrorAfterDelete(receipts: seq<Receipt>, op: RouteOperation, owned: Owned)
      requires recovery != null && Distinct(speaker.codec, receipts)
      requires ClaimsByKey(speaker.codec, reconciler.applied, OwnedOf(receipts))
      requires op.says.wireKey in reconciler.applied && reconciler.applied[op.says.wireKey] == owned
      requires recovery.state.receipts == WithoutReceipt(receipts, owned.pathUUID)
      ensures ClaimsByKey(speaker.codec, Without(reconciler.applied, op.says.wireKey), OwnedOf(recovery.state.receipts))
    {
      RestOwned(speaker.codec, receipts, owned);
      MirrorDelete(speaker.codec, reconciler.applied, OwnedOf(receipts), op.says.wireKey, OwnedOf(recovery.state.receipts));
    }

    /** The checks before one request. Losing readiness or continuity without durable recovery fences. */
    method Clearance() returns (ok: bool)
      requires InPass()
      modifies this`blocked, this`trail
      ensures Orderly()
      ensures |trail| == |old(trail)| + 1 && old(trail) < trail && trail[|old(trail)|].Gate?
      ensures ok ==> InPass() && Attested(continuity, trail)
    {
      var ready, continues: bool := *, *;
      ok := ready && (!continuity || continues);
      if !ready {
        if recovery != null {
          Note(Gate(false, None));
        } else {
          if !continuity || !continues { blocked := true; }
          Note(Gate(false, if continuity then Some(continues) else None));
        }
      } else {
        if continuity && !continues && recovery == null { blocked := true; }
        Note(Gate(true, if continuity then Some(continues) else None));
      }
    }

    method CheckAndApply(op: RouteOperation) returns (ok: bool, ghost id: string)
      requires Valid() && InPass()
      requires op.says.action == Advertise ==> Advertised(speaker.codec, op.says.endpoint, op.says.wireKey)
      modifies Repr()
      ensures Valid() && Orderly() && initialized == old(initialized)
      ensures trail == old(trail) + [Ready(continuity), Sent(op.says)]
              || (!ok && |trail| == |old(trail)| + 1 && old(trail) < trail && trail[|old(trail)|].Gate?)
      ensures ok ==> InPass() && reconciler.synchronized
                     && reconciler.applied == Execute(old(reconciler.applied), op.says, id)
      ensures ok && old(Settled()) ==> Settled()
    {
      id := "";
      ok := Clearance();
      if ok { ok, id := ApplyDelta(op); }
    }

    /** Check the speaker, then execute the first delta of what is still to do. */
    method ApplyNext(op: RouteOperation, ghost want: Desired, ghost plan: seq<Delta>) returns (ok: bool)
      requires Valid() && plan != [] && plan == Plan(speaker.codec, reconciler.applied, want) && op.says == plan[0]
      requires op.says.action == Advertise ==> Advertised(speaker.codec, op.says.endpoint, op.says.wireKey)
      requires InPass()
      modifies Repr()
      ensures Valid() && Orderly() && initialized == old(initialized)
      ensures trail == old(trail) + [Ready(continuity), Sent(plan[0])]
              || (!ok && |trail| == |old(trail)| + 1 && old(trail) < trail && trail[|old(trail)|].Gate?)
      ensures ok ==> InPass() && reconciler.synchronized && Plan(speaker.codec, reconciler.applied, want) == plan[1..]
      ensures ok && old(Settled()) ==> Settled()
    {
      ghost var before, id := reconciler.applied, "";
      ok, id := CheckAndApply(op);
      if ok { ExecuteHead(speaker.codec, before, want, id); }
    }

    /** The first `i` deltas of a plan are sent and executed, the rest is still what is to be done. */
    ghost predicate Underway(want: Desired, plan: seq<Delta>, start: seq<Step>, i: nat)
      reads Repr()
    {
      && Valid() && i <= |plan| && plan[i..] == Plan(speaker.codec, reconciler.applied, want)
      && InPass() && Settled() && (recovery != null ==> reconciler.synchronized)
      && trail == start + Requests(continuity, plan[..i])
    }

    method ApplyAt(op: RouteOperation, ghost want: Desired, ghost plan: seq<Delta>, ghost start: seq<Step>, ghost i: nat)
      returns (ok: bool)
      requires i < |plan| && Underway(want, plan, start, i) && op.says == plan[i]
      requires op.says.action == Advertise ==> Advertised(speaker.codec, op.says.endpoint, op.says.wireKey)
      modifies Repr()
      ensures ok ==> Underway(want, plan, start, i + 1)
      ensures !ok ==> Valid() && Orderly() && StoppedAt(continuity, start, plan, trail, i)
    {
      RequestsNext(continuity, start, plan, i);
      ok := ApplyNext(op, want, plan[i..]);
    }

    /** Execute a plan in order. */
    method ApplyPlan(ops: seq<RouteOperation>, ghost want: Desired, ghost plan: seq<Delta>) returns (ok: bool, ghost at: nat)
      requires plan == Says(ops)
      requires Advertises(speaker.codec, plan)
      requires Underway(want, plan, trail, 0)
      modifies Repr()
      ensures ok ==> Underway(want, plan, old(trail), |plan|)
      ensures !ok ==> Valid() && Orderly() && StoppedAt(continuity, old(trail), plan, trail, at)
    {
      at := 0;
      for i := 0 to |ops|
        invariant Underway(want, plan, old(trail), i)
      {
        at := i;
        ok := ApplyAt(ops[i], want, plan, old(trail), i);
        if !ok { return; }
      }
      ok := true;
    }

    /** Begins a pass and checks the speaker. */
    method OpenPass() returns (ok: bool)
      requires Orderly() && !blocked
      modifies this`blocked, this`trail
      ensures Orderly() && Silent(old(trail), trail)
      ensures ok ==> !blocked && !InPass() && Attested(continuity, trail)
      ensures ok ==> trail == old(trail) + [Pass(initialized, reconciler.applied)] + Checks(continuity, initialized)
    {
      Note(Pass(initialized, reconciler.applied));
      ok := SpeakerReady();
    }

    /** Everything that must succeed before the first write of a pass. */
    method Prepare() returns (ok: bool, ghost paths: seq<RibPath>)
      requires Valid() && Orderly() && !blocked
      modifies Repr()
      ensures Valid() && Orderly() && Silent(old(trail), trail)
      ensures ok ==> InPass() && Settled() && (recovery != null ==> reconciler.synchronized)
      ensures ok ==> AllShown(speaker.codec, paths, reconciler.applied)
      ensures ok ==>
        trail == old(trail) + Opening(continuity, old(initialized), old(reconciler.applied), View(paths, reconciler.applied, []))
    {
      paths := [];
      ok := OpenPass();
      if !ok { return; }
      ghost var checked := trail;
      ok, paths := Look();
      OpeningEnds(continuity, old(initialized), old(reconciler.applied), View(paths, reconciler.applied, []), old(trail));
      SilentThen(old(trail), checked, trail);
    }

    /** Resynchronizes and compares a reading of the RIB with the applied routes. */
    method Look() returns (ok: bool, ghost paths: seq<RibPath>)
      requires Valid() && Orderly() && !blocked && !InPass() && Attested(continuity, trail)
      modifies Repr()
      ensures Valid() && Orderly() && Silent(old(trail), trail)
      ensures ok ==> InPass() && Settled() && (recovery != null ==> reconciler.synchronized)
      ensures ok ==> AllShown(speaker.codec, paths, reconciler.applied)
      ensures ok ==> trail == old(trail) + [Compared(paths, reconciler.applied)]
    {
      paths := [];
      var read := Reread();
      if read.None? { return false, []; }
      paths := read.value;
      ok := PathsPresent(read.value);
    }

    /** Resynchronizes and reads the RIB. */
    method Reread() returns (paths: Option<seq<RibPath>>)
      requires Valid()
      modifies Repr()
      ensures Valid() && blocked == old(blocked) && trail == old(trail)
      ensures paths.Some? ==> Settled() && (recovery != null ==> reconciler.synchronized)
    {
      var ok := Resynchronize();
      if !ok { return None; }
      paths := ReadRIB();
    }

    method PlanDesired(desired: seq<LocalEndpoint>) returns (ops: Option<seq<RouteOperation>>)
      requires Valid() && Settled() && (recovery != null ==> reconciler.synchronized)
      requires InPass()
      modifies reconciler`pending
      ensures Valid() && (ops.Some? ==> Coherent(speaker.codec, reconciler.foreign, desired))
      ensures ops.Some? ==>
        var plan := Says(ops.value);
        && Underway(Collect(speaker.codec, desired), plan, trail, 0)
        && PlanOk(speaker.codec, reconciler.applied, desired, plan) && Advertises(speaker.codec, plan)
    {
      ops := reconciler.Reconcile(desired);
      if ops.Some? {
        PlanAdvertises(speaker.codec, reconciler.applied, desired, Says(ops.value));
        PlanStarts(continuity, trail, Says(ops.value));
      }
    }

    /** Plans and executes what the desired endpoints ask for. */
    method ApplyDesired(desired: seq<LocalEndpoint>) returns (ok: bool, ghost plan: seq<Delta>, ghost at: nat)
      requires Valid() && Settled() && (recovery != null ==> reconciler.synchronized)
      requires InPass()
      modifies Repr()
      ensures Valid() && Orderly() && (ok ==> InPass() && MirrorsDisk())
      ensures ok ==> Exported(speaker.codec, reconciler.applied, desired)
      ensures ok ==> PlanOk(speaker.codec, old(reconciler.applied), desired, plan) && trail == old(trail) + Requests(continuity, plan)
      ensures !ok ==> trail == old(trail)
                      || (PlanOk(speaker.codec, old(reconciler.applied), desired, plan)
                          && StoppedAt(continuity, old(trail), plan, trail, at))
    {
      plan, at := [], 0;
      ghost var foreign := reconciler.foreign;
      var ops := PlanDesired(desired);
      if ops.None? { return false, [], 0; }
      plan := Says(ops.value);
      ok, at := ApplyPlan(ops.value, Collect(speaker.codec, desired), plan);
      if ok {
        PlanEnds(continuity, plan);
        NothingRemains(speaker.codec, reconciler.applied, foreign, desired);
      }
    }

    /** `observed` is None when endpoint observation failed. On success the applied routes are exported as the
        observed endpoints ask and, in recovery mode, are the receipts on disk. */
    method Reconcile(observed: Option<seq<LocalEndpoint>>, dryRun: bool) returns (ok: bool, ghost v: View, ghost at: nat)
      requires Valid() && Orderly()
      modifies Repr()
      ensures Valid() && Orderly()
      ensures old(blocked) || dryRun || observed.None? ==>
        trail == old(trail) && blocked == old(blocked) && reconciler.applied == old(reconciler.applied)
      ensures ok ==> observed.Some? && !blocked
      ensures ok && !dryRun ==> Exported(speaker.codec, reconciler.applied, observed.value) && MirrorsDisk()
      ensures ok && !dryRun ==>
        Completed(speaker.codec, continuity, old(initialized), old(reconciler.applied), observed.value, old(trail), trail, v)
      ensures !ok && observed.None? ==> Silent(old(trail), trail)
      ensures !ok && observed.Some? && !Silent(old(trail), trail) ==>
        Stopped(speaker.codec, continuity, old(initialized), old(reconciler.applied), observed.value, old(trail), trail, v, at)
    {
      v, at := View([], map[], []), 0;
      if blocked || observed.None? { return false, v, at; }
      var desired := observed.value;
      if exists i :: 0 <= i < |desired| && speaker.codec.build(desired[i]).None? { return false, v, at; }
      if dryRun { return true, v, at; }
      ghost var paths, plan := [], [];
      ok, paths := Prepare();
      if !ok { return; }
      v := View(paths, reconciler.applied, []);
      ok, plan, at := ApplyDesired(desired);
      v := v.(plan := plan);
    }

    /** Readiness and continuity before anything is written. Losing either without durable
        recovery fences all further writes. */
    method SpeakerReady() returns (ok: bool)
      requires Orderly() && !blocked && !InPass() && trail != []
      requires trail[|trail| - 1] == Pass(initialized, reconciler.applied)
      modifies this`blocked, this`trail
      ensures Orderly() && Silent(old(trail), trail)
      ensures ok ==> !blocked && !InPass()
      ensures ok ==> trail == old(trail) + Checks(continuity, initialized)
    {
      ghost var before := trail[..|trail| - 1];
      assert trail == before + [trail[|trail| - 1]];
      HeldExtends(before, trail[|trail| - 1]);
      if continuity && initialized {
        var first: bool := *;
        if !first && recovery == null { blocked := true; }
        HeldExtends(trail, Continuity(first));
        Note(Continuity(first));
        if !first { return false; }
      }
      ok := FirstGate();
    }

    /** The gate before planning. A closed gate asks for continuity only when routes are applied. */
    method FirstGate() returns (ok: bool)
      requires Orderly() && !blocked && !InPass() && !(continuity && Reopened(trail))
      requires Held(trail) <==> reconciler.applied != map[]
      modifies this`blocked, this`trail
      ensures Orderly() && Silent(old(trail), trail)
      ensures ok ==> !blocked && !InPass() && trail == old(trail) + [Ready(continuity)]
    {
      var ready, continues: bool := *, *;
      if !ready {
        if recovery == null && reconciler.applied != map[] {
          if !continuity || !continues { blocked := true; }
          Note(Gate(false, if continuity then Some(continues) else None));
        } else {
          Note(Gate(false, None));
        }
        return false;
      }
      ok := !continuity || continues;
      Note(Gate(true, if continuity then Some(continues) else None));
    }

    /** Withdraw the given networks and keep everything else this process has applied. */
    method DrainNetworks(networks: set<string>, dryRun: bool) returns (ok: bool, keep: seq<LocalEndpoint>)
      requires Valid() && Orderly()
      modifies Repr()
      ensures Valid() && Orderly() && old(trail) <= trail
      ensures forall ep :: ep in keep <==>
        exists key :: key in old(reconciler.applied) && old(reconciler.applied)[key].endpoint == ep && ep.networkID !in networks
      ensures ok && !dryRun ==> Exported(speaker.codec, reconciler.applied, keep)
    {
      keep := KeepOthers(reconciler.applied, networks);
      ghost var v, at;
      ok, v, at := Reconcile(Some(keep), dryRun);
    }
  }

  /** Any passes over any endpoints: everything is done in order, the exporter is fenced exactly when its last
      step fences, and then nothing is checked, read or sent any more. */
  method AnyExporterRun(e: EndpointExporter, passes: seq<(Option<seq<LocalEndpoint>>, bool)>)
    requires e.Valid() && e.Orderly()
    modifies e.Repr()
    ensures e.Valid() && e.Orderly() && old(e.trail) <= e.trail
    ensures old(e.blocked) ==> e.blocked && e.trail == old(e.trail) && e.reconciler.applied == old(e.reconciler.applied)
  {
    for k := 0 to |passes|
      invariant e.Valid() && e.Orderly() && old(e.trail) <= e.trail
      invariant old(e.blocked) ==> e.blocked && e.trail == old(e.trail) && e.reconciler.applied == old(e.reconciler.applied)
    {
      var _, _, _ := e.Reconcile(passes[k].0, passes[k].1);
    }
  }

  method KeepOthers(applied: Applied, networks: set<string>) returns (keep: seq<LocalEndpoint>)
    ensures forall ep :: ep in keep <==>
      exists key :: key in applied && applied[key].endpoint == ep && ep.networkID !in networks
  {
    var keys := SortedKeys(applied.Keys);
    keep := [];
    for i := 0 to |keys|
      invariant forall ep | ep in keep :: exists key :: key in applied && applied[key].endpoint == ep && ep.networkID !in networks
      invariant forall j | 0 <= j < i && applied[keys[j]].endpoint.networkID !in networks :: applied[keys[j]].endpoint in keep
    {
      assert keys[i] in keys;
      var ep := applied[keys[i]].endpoint;
      if ep.networkID !in networks { keep := keep + [ep]; }
    }
    forall key | key in applied && applied[key].endpoint.networkID !in networks ensures applied[key].endpoint in keep {
      assert key in keys;
      var j :| 0 <= j < |keys| && keys[j] == key;
    }
  }

  ghost predicate Advertises(c: Codec, plan: seq<Delta>)
  {
    forall i | 0 <= i < |plan| && plan[i].action == Advertise :: Advertised(c, plan[i].endpoint, plan[i].wireKey)
  }

  lemma PlanAdvertises(c: Codec, applied: Applied, desired: seq<LocalEndpoint>, plan: seq<Delta>)
    requires PlanOk(c, applied, desired, plan)
    ensures Advertises(c, plan)
  {
    forall i | 0 <= i < |plan| && plan[i].action == Advertise ensures Advertised(c, plan[i].endpoint, plan[i].wireKey) {
      assert DeltaOk(c, applied, desired, plan[i]);
    }
  }
}

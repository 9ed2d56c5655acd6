/** Durable acknowledgements of CNI endpoints, and the histories the node agent can write. */
module CNIAcks {
  import opened Basics
  import opened OwnershipJournal

  datatype Stage = PendingCreation | Active | Quarantined | Deleted

  /** What an endpoint is; `rest` stands for the fields only compared as a whole. */
  datatype Spec = Spec(identity: string, networkID: string, endpointID: string, incarnation: string, mac: string,
                       ips: seq<string>, rest: string)

  /** UUIDs of the created resources and the identity of the network namespace. */
  datatype Receipt = Receipt(switchUUID: string, lspUUID: string, netns: nat, rest: string)

  /** The creation authority's evidence: the namespace it admitted. */
  datatype Admission = Admission(netns: nat, rest: string)

  datatype ACK = ACK(key: string, spec: Spec, receipt: Receipt, stage: Stage, admission: Option<Admission>,
                     createdAt: nat, verifyBy: nat, verifiedAt: nat, reason: string)

  type Acks = map<string, ACK>

  const VERIFY_WINDOW: nat := 120
  const ADD := "cni-add"
  const DEL := "cni-del"
  const IDENTITY := "cni-identity"

  /** The identity, spec and result tests of an acknowledgement, which involve neither stage nor time. */
  datatype Kit = Kit(consistent: (string, Spec, Receipt) -> bool, admissible: (Spec, Admission) -> bool,
                     sameMAC: (string, string) -> bool, address: string -> Option<string>)

  /** Validation of a stored acknowledgement. */
  predicate Validates(kit: Kit, key: string, a: ACK)
  {
    if a.key != key || !kit.consistent(key, a.spec, a.receipt) then false
    else if a.stage == PendingCreation && (a.admission.None? || a.createdAt == 0 || a.verifyBy <= a.createdAt
                                           || a.verifyBy - a.createdAt > VERIFY_WINDOW) then false
    else if a.admission.Some? && (a.admission.value.netns == 0 || a.admission.value.netns != a.receipt.netns
                                  || !kit.admissible(a.spec, a.admission.value)) then false
    else if a.stage == Active && a.admission.Some? && (a.verifiedAt == 0 || a.verifiedAt < a.createdAt
                                                       || a.verifyBy < a.verifiedAt) then false
    else true
  }

  ghost predicate InTime(a: ACK)
  {
    0 < a.verifiedAt && a.createdAt <= a.verifiedAt <= a.verifyBy
  }

  ghost predicate Bounded(a: ACK)
  {
    a.admission.Some? && 0 < a.createdAt < a.verifyBy <= a.createdAt + 120
  }

  ghost predicate Admitted(kit: Kit, a: ACK)
  {
    a.admission.Some? ==>
      0 != a.admission.value.netns == a.receipt.netns && kit.admissible(a.spec, a.admission.value)
  }

  /** Everything validation asks for except the time of activation. */
  ghost predicate Sound(kit: Kit, key: string, a: ACK)
  {
    && a.key == key && kit.consistent(key, a.spec, a.receipt) && Admitted(kit, a)
    && (a.stage == PendingCreation ==> Bounded(a))
  }

  /** What validation promises of an acknowledgement. */
  ghost predicate WellFormed(kit: Kit, key: string, a: ACK)
  {
    Sound(kit, key, a) && (a.stage == Active && a.admission.Some? ==> InTime(a))
  }

  lemma ValidatesIff(kit: Kit, key: string, a: ACK)
    ensures Validates(kit, key, a) <==> WellFormed(kit, key, a)
  {
  }

  function StateOf(r: Record<Acks, ACK>): Acks
  {
    if r.state.None? then map[] else r.state.value
  }

  // ---------------------------------------------------------------- what reaches the disk

  ghost predicate Fresh(acks: Acks, key: string)
  {
    key !in acks || acks[key].stage == Deleted
  }

  /** The outcome of one verification pass over a pending endpoint. */
  ghost predicate Decides(before: ACK, after: ACK)
  {
    before.stage == PendingCreation && (after.stage == Active || after.stage == Quarantined)
    && after == before.(stage := after.stage, verifiedAt := after.verifiedAt, reason := after.reason)
  }

  /** Which intents are ever written. */
  ghost predicate IntentOk(acks: Acks, operation: string, p: ACK)
  {
    || (operation == ADD && Fresh(acks, p.key))
    || (operation == DEL && p.key in acks && p == acks[p.key] && p.stage != Deleted)
    || (operation == IDENTITY && p.key in acks && Decides(acks[p.key], p))
  }

  /** Which states acknowledge an intent. */
  ghost predicate AckOk(kit: Kit, acks: Acks, operation: string, p: ACK, next: Acks)
  {
    || (operation == ADD && p.key in next && next == acks[p.key := next[p.key]] && WellFormed(kit, p.key, next[p.key])
        && (next[p.key].stage == Active || next[p.key].stage == PendingCreation)
        && next[p.key].spec == p.spec.(rest := next[p.key].spec.rest)
        && (next[p.key].stage == Active ==> next[p.key].admission.None?)
        && (next[p.key].stage == PendingCreation ==> next[p.key].verifiedAt == 0 && next[p.key].reason == ""))
    || (operation == DEL && next == acks[p.key := p.(stage := Deleted)])
    || (operation == IDENTITY && (next == acks[p.key := p] || next == acks))
  }

  ghost predicate Step(kit: Kit, a: Record<Acks, ACK>, b: Record<Acks, ACK>)
  {
    && (BeginStep(a, b) ==> IntentOk(StateOf(a), b.pending.value.operation, b.pending.value.payload))
    && (CommitStep(a, b) ==>
          AckOk(kit, StateOf(a), a.pending.value.operation, a.pending.value.payload, StateOf(b)))
  }

  ghost predicate StepAt(kit: Kit, h: seq<Record<Acks, ACK>>, i: int)
  {
    0 <= i < |h| - 1 ==> Step(kit, h[i], h[i + 1])
  }

  ghost predicate History(kit: Kit, h: seq<Record<Acks, ACK>>)
  {
    LegalHistory(h) && forall i :: StepAt(kit, h, i)
  }

  lemma HistoryExtends(kit: Kit, h: seq<Record<Acks, ACK>>, r: Record<Acks, ACK>)
    requires History(kit, h) && h != [] && DiskStep(h[|h| - 1], r) && Step(kit, h[|h| - 1], r)
    ensures History(kit, h + [r])
  {
    var more := h + [r];
    LegalExtends(h, r);
    forall i ensures StepAt(kit, more, i) { assert StepAt(kit, h, i); }
  }

  // ---------------------------------------------------------------- what every run keeps

  ghost predicate SoundAt(kit: Kit, acks: Acks, key: string)
  {
    key in acks ==> Sound(kit, key, acks[key])
  }

  /** A pending intent still describes the state it was begun in. */
  ghost predicate PendingOk(r: Record<Acks, ACK>)
  {
    r.pending.Some? ==> IntentOk(StateOf(r), r.pending.value.operation, r.pending.value.payload)
  }

  lemma {:induction false} EveryAckSound(kit: Kit, h: seq<Record<Acks, ACK>>, i: nat)
    requires History(kit, h) && i < |h|
    ensures PendingOk(h[i]) && forall key :: SoundAt(kit, StateOf(h[i]), key)
  {
    if i > 0 {
      EveryAckSound(kit, h, i - 1);
      HistoryShape(h, i - 1);
      assert StepAt(kit, h, i - 1) && LegalAt(h, i - 1);
      forall key ensures SoundAt(kit, StateOf(h[i]), key) { assert SoundAt(kit, StateOf(h[i - 1]), key); }
    }
  }

  /** The exact condition under which a restart accepts what was stored: activation stamped
      within its window. The stamp is a clock reading of its own, so nothing else enforces it. */
  lemma RecoverableIffInTime(kit: Kit, h: seq<Record<Acks, ACK>>, i: nat, key: string)
    requires History(kit, h) && i < |h| && key in StateOf(h[i])
    ensures
      var a := StateOf(h[i])[key];
      WellFormed(kit, key, a) <==> (a.stage == Active && a.admission.Some? ==> InTime(a))
  {
    EveryAckSound(kit, h, i);
    assert SoundAt(kit, StateOf(h[i]), key);
  }

  /** An interrupted decision that recovery may drop: it concerns a pending endpoint and would
      change nothing but the decision. */
  predicate Droppable(acks: Acks, p: ACK)
  {
    p.key in acks && acks[p.key].stage == PendingCreation
    && p.(stage := acks[p.key].stage, reason := acks[p.key].reason, verifiedAt := acks[p.key].verifiedAt) == acks[p.key]
  }

  /** A crash inside a verification never blocks recovery: its intent is always droppable. */
  lemma CrashedDecisionIsDroppable(kit: Kit, h: seq<Record<Acks, ACK>>, i: nat)
    requires History(kit, h) && i < |h| && h[i].pending.Some? && h[i].pending.value.operation == IDENTITY
    ensures Droppable(StateOf(h[i]), h[i].pending.value.payload)
  {
    EveryAckSound(kit, h, i);
  }

  /** One durable step takes an acknowledgement only along the life cycle. */
  ghost predicate Moves(kit: Kit, before: Acks, after: Acks, key: string)
  {
    || (key in before && key in after && after[key] == before[key])
    || (key !in before && key !in after)
    || (Fresh(before, key) && key in after && WellFormed(kit, key, after[key])
        && (after[key].stage == PendingCreation || (after[key].stage == Active && after[key].admission.None?)))
    || (key in before && key in after && Decides(before[key], after[key]))
    || (key in before && key in after && before[key].stage != Deleted && after[key] == before[key].(stage := Deleted))
  }

  lemma LifeCycle(kit: Kit, h: seq<Record<Acks, ACK>>, i: nat, key: string)
    requires History(kit, h) && i < |h| - 1
    ensures Moves(kit, StateOf(h[i]), StateOf(h[i + 1]), key)
  {
    EveryAckSound(kit, h, i);
    HistoryShape(h, i);
    assert StepAt(kit, h, i) && LegalAt(h, i);
  }

  /** Across any crashes and restarts, a quarantined endpoint stays exactly as it is until it is deleted. */
  lemma {:induction false} QuarantineLeadsOnlyToDeletion(kit: Kit, h: seq<Record<Acks, ACK>>, i: nat, j: nat, key: string)
    requires History(kit, h) && i <= j < |h|
    requires key in StateOf(h[i]) && StateOf(h[i])[key].stage == Quarantined
    ensures || (key in StateOf(h[j]) && StateOf(h[j])[key] == StateOf(h[i])[key])
            || exists k | i < k <= j ::
                 key in StateOf(h[k]) && StateOf(h[k])[key] == StateOf(h[i])[key].(stage := Deleted)
    decreases j - i
  {
    if i < j {
      QuarantineLeadsOnlyToDeletion(kit, h, i, j - 1, key);
      LifeCycle(kit, h, j - 1, key);
    }
  }

  /** An endpoint created under an authority is active only after a decision on exactly its pending form. */
  lemma {:induction false} ActivationHasOrigin(kit: Kit, h: seq<Record<Acks, ACK>>, j: nat, key: string) returns (i: nat)
    requires History(kit, h) && j < |h| && key in StateOf(h[j])
    requires StateOf(h[j])[key].stage == Active && StateOf(h[j])[key].admission.Some?
    ensures i < j && key in StateOf(h[i]) && Decides(StateOf(h[i])[key], StateOf(h[j])[key])
    ensures key in StateOf(h[i + 1]) && StateOf(h[i + 1])[key] == StateOf(h[j])[key]
  {
    HistoryShape(h, j);
    LifeCycle(kit, h, j - 1, key);
    if key in StateOf(h[j - 1]) && StateOf(h[j - 1])[key] == StateOf(h[j])[key] {
      i := ActivationHasOrigin(kit, h, j - 1, key);
    } else {
      i := j - 1;
    }
  }

  // ---------------------------------------------------------------- the world outside

  datatype Seen = Alive | Gone | Conflicting | Unclear

  /** What was seen of an acknowledged endpoint, and in which pass. */
  type Sightings = set<(nat, ACK)>

  /** A verification that found everything in order: the last record on disk at that time, the pass, the
      pending acknowledgement it looked at, and its two readings of the clock. */
  datatype Verdict = Verdict(at: nat, pass: nat, ack: ACK, started: nat, ended: nat)

  /** What the observer answers about the resources of an endpoint. */
  datatype Observation = Failed | Absent(switchUUID: string) | Present(receipt: Receipt)

  /** An endpoint's resources, or its network attachment, were seen absent while record `at` was the last. */
  datatype Absence = ResourcesAbsent(at: nat, pass: nat, key: string, spec: Spec, switchUUID: string)
                   | NetworkAbsent(at: nat, pass: nat, key: string)

  /** All that was seen so far. A pass is one call or one verification; `pods` holds what the checks of
      ADD saw, `alive` and `gone` what the check of a running workload saw, `admissions` the network
      namespaces the creation authority admitted. */
  datatype Log = Log(pass: nat, pods: set<(nat, Spec)>, alive: Sightings, gone: Sightings, matched: Sightings,
                     verdicts: set<Verdict>, absences: set<Absence>, admissions: set<(nat, string, nat)>)

  ghost predicate PodBy(l: Log, s: (nat, Spec))
  {
    s in l.pods ==> s.0 <= l.pass
  }

  ghost predicate SeenBy(l: Log, s: (nat, ACK))
  {
    Appears(l, s) ==> s.0 <= l.pass
  }

  ghost predicate Appears(l: Log, s: (nat, ACK))
  {
    s in l.alive || s in l.gone || s in l.matched
  }

  ghost predicate AdmittedBy(l: Log, s: (nat, string, nat))
  {
    s in l.admissions ==> s.0 <= l.pass
  }

  ghost predicate AbsenceBy(l: Log, a: Absence)
  {
    a in l.absences ==> a.pass <= l.pass
  }

  /** A verdict rests on sightings of its own pass, and both readings precede the deadline. */
  ghost predicate Grounded(l: Log, v: Verdict)
  {
    && v.ack.stage == PendingCreation && v.started < v.ack.verifyBy && v.ended < v.ack.verifyBy
    && (v.pass, v.ack) in l.alive && (v.pass, v.ack) in l.matched
  }

  ghost predicate GroundedAt(l: Log, v: Verdict)
  {
    v in l.verdicts ==> Grounded(l, v)
  }

  /** Nothing was seen in a later pass, and every verdict is grounded. */
  ghost predicate Coherent(l: Log)
  {
    && (forall s :: PodBy(l, s)) && (forall s :: SeenBy(l, s)) && (forall a :: AbsenceBy(l, a))
    && (forall s :: AdmittedBy(l, s)) && forall v :: GroundedAt(l, v)
  }

  ghost predicate Grows(a: Log, b: Log)
  {
    && a.pass <= b.pass && a.pods <= b.pods && a.alive <= b.alive && a.gone <= b.gone && a.matched <= b.matched
    && a.verdicts <= b.verdicts && a.absences <= b.absences && a.admissions <= b.admissions
  }

  /** Growth within one pass. */
  ghost predicate Adds(a: Log, b: Log)
  {
    Grows(a, b) && a.pass == b.pass
  }

  /** A log stays coherent while it grows by what belongs to its last pass. */
  lemma StaysCoherent(a: Log, b: Log)
    requires Coherent(a) && Grows(a, b)
    requires forall s | s in b.pods - a.pods :: s.0 == b.pass
    requires forall s | s in b.alive - a.alive :: s.0 == b.pass
    requires forall s | s in b.gone - a.gone :: s.0 == b.pass
    requires forall s | s in b.matched - a.matched :: s.0 == b.pass
    requires forall v | v in b.verdicts - a.verdicts :: Grounded(b, v)
    requires forall s | s in b.absences - a.absences :: s.pass == b.pass
    requires forall s | s in b.admissions - a.admissions :: s.0 == b.pass
    ensures Coherent(b)
  {
    forall s ensures AdmittedBy(b, s) { assert AdmittedBy(a, s); }
    forall s ensures AbsenceBy(b, s) { assert AbsenceBy(a, s); }
    forall s ensures PodBy(b, s) { assert PodBy(a, s); }
    forall s ensures SeenBy(b, s) { assert SeenBy(a, s); }
    forall v ensures GroundedAt(b, v) { assert GroundedAt(a, v); }
  }

  class World {
    ghost var seen: Log

    constructor ()
      ensures Coherent(seen) && seen.verdicts == {} && seen.absences == {}
    {
      seen := Log(0, {}, {}, {}, {}, {}, {}, {});
    }

    ghost method NextPass()
      requires Coherent(seen)
      modifies this
      ensures Coherent(seen) && seen == old(seen).(pass := old(seen).pass + 1)
    {
      seen := seen.(pass := seen.pass + 1);
      StaysCoherent(old(seen), seen);
    }

    /** The check of ADD: the Pod exists, or the workload is being created. */
    method Pod(spec: Spec) returns (ok: bool)
      requires Coherent(seen)
      modifies this
      ensures Coherent(seen) && seen == if ok then WithPod(old(seen), spec) else old(seen)
    {
      ok := *;
      if ok {
        seen := WithPod(seen, spec);
        StaysCoherent(old(seen), seen);
      }
    }

    /** The check of a running workload. */
    method Workload(a: ACK) returns (w: Seen)
      requires Coherent(seen)
      modifies this
      ensures Coherent(seen)
      ensures seen == if w.Alive? then WithAlive(old(seen), a) else if w.Gone? then WithGone(old(seen), a) else old(seen)
    {
      w := *;
      if w.Alive? {
        seen := WithAlive(seen, a);
      } else if w.Gone? {
        seen := WithGone(seen, a);
      }
      StaysCoherent(old(seen), seen);
    }

    /** The observed receipt equals the acknowledged one and the network check passes. */
    method Resources(a: ACK) returns (ok: bool)
      requires Coherent(seen)
      modifies this
      ensures Coherent(seen) && seen == if ok then WithMatch(old(seen), a) else old(seen)
    {
      ok := *;
      if ok {
        seen := WithMatch(seen, a);
        StaysCoherent(old(seen), seen);
      }
    }

    method Observe(key: string, spec: Spec, ghost at: nat) returns (o: Observation)
      requires Coherent(seen)
      modifies this
      ensures Coherent(seen)
      ensures seen == if o.Absent? then WithAbsence(old(seen), ResourcesAbsent(at, old(seen).pass, key, spec, o.switchUUID))
                      else old(seen)
    {
      o := *;
      if o.Absent? {
        seen := WithAbsence(seen, ResourcesAbsent(at, seen.pass, key, spec, o.switchUUID));
        StaysCoherent(old(seen), seen);
      }
    }

    method Attachment(key: string, ghost at: nat) returns (absent: bool)
      requires Coherent(seen)
      modifies this
      ensures Coherent(seen)
      ensures seen == if absent then WithAbsence(old(seen), NetworkAbsent(at, old(seen).pass, key)) else old(seen)
    {
      absent := *;
      if absent {
        seen := WithAbsence(seen, NetworkAbsent(at, seen.pass, key));
        StaysCoherent(old(seen), seen);
      }
    }

    /** The creation authority. */
    method Admit(key: string) returns (evidence: Option<Admission>)
      requires Coherent(seen)
      modifies this
      ensures Coherent(seen)
      ensures seen == if evidence.Some? then WithAdmission(old(seen), key, evidence.value.netns) else old(seen)
    {
      evidence := *;
      if evidence.Some? {
        seen := WithAdmission(seen, key, evidence.value.netns);
        StaysCoherent(old(seen), seen);
      }
    }

    /** Remembers a verification that found everything in order in this pass. */
    ghost method Judge(v: Verdict)
      requires Coherent(seen) && v.pass == seen.pass && Grounded(seen, v)
      modifies this
      ensures Coherent(seen) && seen == old(seen).(verdicts := old(seen).verdicts + {v})
    {
      seen := seen.(verdicts := seen.verdicts + {v});
      StaysCoherent(old(seen), seen);
    }
  }

  ghost function WithPod(l: Log, spec: Spec): Log { l.(pods := l.pods + {(l.pass, spec)}) }

  ghost function WithAlive(l: Log, a: ACK): Log { l.(alive := l.alive + {(l.pass, a)}) }

  ghost function WithGone(l: Log, a: ACK): Log { l.(gone := l.gone + {(l.pass, a)}) }

  ghost function WithMatch(l: Log, a: ACK): Log { l.(matched := l.matched + {(l.pass, a)}) }

  ghost function WithAdmission(l: Log, key: string, netns: nat): Log
  {
    l.(admissions := l.admissions + {(l.pass, key, netns)})
  }

  ghost function WithAbsence(l: Log, a: Absence): Log { l.(absences := l.absences + {a}) }

  // ---------------------------------------------------------------- the evidence for an activation

  /** A verdict was reached on this acknowledgement while record `at` was the last one. */
  ghost predicate Judged(verdicts: set<Verdict>, at: int, a: ACK)
  {
    exists v :: v in verdicts && v.at == at && v.ack == a
  }

  /** The record begins an activation. */
  ghost predicate Activates(r: Record<Acks, ACK>)
  {
    r.pending.Some? && r.pending.value.operation == IDENTITY && r.pending.value.payload.stage == Active
  }

  /** An activation begun by the next record was judged on what this record holds. */
  ghost predicate JudgedAt(verdicts: set<Verdict>, h: seq<Record<Acks, ACK>>, i: int)
  {
    0 <= i < |h| - 1 && Activates(h[i + 1]) ==>
      var key := h[i + 1].pending.value.payload.key;
      key in StateOf(h[i]) && Judged(verdicts, i, StateOf(h[i])[key])
  }

  ghost predicate AllJudged(verdicts: set<Verdict>, h: seq<Record<Acks, ACK>>)
  {
    forall i :: JudgedAt(verdicts, h, i)
  }

  lemma JudgedExtends(verdicts: set<Verdict>, h: seq<Record<Acks, ACK>>, r: Record<Acks, ACK>)
    requires AllJudged(verdicts, h) && h != []
    requires Activates(r) ==>
               var key := r.pending.value.payload.key;
               key in StateOf(h[|h| - 1]) && Judged(verdicts, |h| - 1, StateOf(h[|h| - 1])[key])
    ensures AllJudged(verdicts, h + [r])
  {
    var more := h + [r];
    forall i ensures JudgedAt(verdicts, more, i) { assert JudgedAt(verdicts, h, i); }
  }

  lemma JudgedGrows(verdicts: set<Verdict>, more: set<Verdict>, h: seq<Record<Acks, ACK>>)
    requires AllJudged(verdicts, h) && verdicts <= more
    ensures AllJudged(more, h)
  {
    forall i ensures JudgedAt(more, h, i) {
      assert JudgedAt(verdicts, h, i);
      if 0 <= i < |h| - 1 && Activates(h[i + 1]) {
        var a := StateOf(h[i])[h[i + 1].pending.value.payload.key];
        var v :| v in verdicts && v.at == i && v.ack == a;
        assert v in more;
      }
    }
  }

  /** The step that made an endpoint active acknowledged an activation begun right before it. */
  lemma ActivationWasBegun(kit: Kit, h: seq<Record<Acks, ACK>>, i: nat, key: string)
    requires History(kit, h) && i < |h| - 1 && key in StateOf(h[i]) && key in StateOf(h[i + 1])
    requires Decides(StateOf(h[i])[key], StateOf(h[i + 1])[key]) && StateOf(h[i + 1])[key].stage == Active
    ensures 0 < i && StateOf(h[i - 1]) == StateOf(h[i]) && Activates(h[i]) && h[i].pending.value.payload.key == key
  {
    EveryAckSound(kit, h, i);
    HistoryShape(h, i);
    HistoryShape(h, i + 1);
    assert StepAt(kit, h, i) && LegalAt(h, i) && LegalAt(h, i - 1);
    HistoryShape(h, i - 1);
  }

  /** Every activation of an endpoint created under an authority rests on a verdict: at some earlier
      record the endpoint was pending on disk, and a verification that saw it exactly so found the
      workload alive and the resources matching, before the deadline at both readings. */
  lemma ActivationHasVerdict(kit: Kit, verdicts: set<Verdict>, h: seq<Record<Acks, ACK>>, j: nat, key: string)
    returns (v: Verdict)
    requires History(kit, h) && AllJudged(verdicts, h) && j < |h| && key in StateOf(h[j])
    requires StateOf(h[j])[key].stage == Active && StateOf(h[j])[key].admission.Some?
    ensures v in verdicts && v.at < j && key in StateOf(h[v.at])
    ensures v.ack == StateOf(h[v.at])[key] && Decides(v.ack, StateOf(h[j])[key])
  {
    var i := ActivationHasOrigin(kit, h, j, key);
    ActivationWasBegun(kit, h, i, key);
    assert JudgedAt(verdicts, h, i - 1);
    v :| v in verdicts && v.at == i - 1 && v.ack == StateOf(h[i - 1])[key];
  }

  // ---------------------------------------------------------------- the evidence for creation and deletion

  /** One pass saw resources and attachment absent while record `at` was the last. */
  ghost predicate Cleared(absences: set<Absence>, at: int, key: string, spec: Spec)
  {
    exists a :: ClearedBy(absences, at, key, spec, a)
  }

  /** The same, under this switch. */
  ghost predicate ClearedUnder(absences: set<Absence>, at: int, key: string, spec: Spec, switchUUID: string)
  {
    exists a :: ClearedBy(absences, at, key, spec, a) && a.switchUUID == switchUUID
  }

  ghost predicate ClearedBy(absences: set<Absence>, at: int, key: string, spec: Spec, a: Absence)
  {
    && a in absences && a.ResourcesAbsent? && a.at == at && a.key == key && a.spec == spec
    && NetworkAbsent(a.at, a.pass, key) in absences
  }

  ghost predicate Creates(r: Record<Acks, ACK>)
  {
    r.pending.Some? && r.pending.value.operation == ADD
  }

  ghost predicate Removes(r: Record<Acks, ACK>)
  {
    r.pending.Some? && r.pending.value.operation == DEL
  }

  /** A creation is begun only where its endpoint was seen absent, and a deletion is acknowledged only
      where its endpoint was seen absent after the intent was durable. */
  ghost predicate ClearedAt(absences: set<Absence>, h: seq<Record<Acks, ACK>>, i: int)
  {
    0 <= i < |h| - 1 ==>
      && (h[i].pending.None? && Creates(h[i + 1]) ==>
            Cleared(absences, i, h[i + 1].pending.value.payload.key, h[i + 1].pending.value.payload.spec))
      && (Removes(h[i]) ==> Cleared(absences, i, h[i].pending.value.payload.key, h[i].pending.value.payload.spec))
  }

  ghost predicate AllCleared(absences: set<Absence>, h: seq<Record<Acks, ACK>>)
  {
    forall i :: ClearedAt(absences, h, i)
  }

  lemma ClearedExtends(absences: set<Absence>, h: seq<Record<Acks, ACK>>, r: Record<Acks, ACK>)
    requires AllCleared(absences, h) && h != []
    requires
      var last := h[|h| - 1];
      && (last.pending.None? && Creates(r) ==>
            Cleared(absences, |h| - 1, r.pending.value.payload.key, r.pending.value.payload.spec))
      && (Removes(last) ==>
            Cleared(absences, |h| - 1, last.pending.value.payload.key, last.pending.value.payload.spec))
    ensures AllCleared(absences, h + [r])
  {
    var more := h + [r];
    forall i ensures ClearedAt(absences, more, i) { assert ClearedAt(absences, h, i); }
  }

  lemma StillCleared(absences: set<Absence>, more: set<Absence>, at: int, key: string, spec: Spec)
    requires absences <= more
    ensures Cleared(absences, at, key, spec) ==> Cleared(more, at, key, spec)
    ensures forall u :: ClearedUnder(absences, at, key, spec, u) ==> ClearedUnder(more, at, key, spec, u)
  {
    forall u | ClearedUnder(absences, at, key, spec, u) ensures ClearedUnder(more, at, key, spec, u) {
      var a :| ClearedBy(absences, at, key, spec, a) && a.switchUUID == u;
      assert ClearedBy(more, at, key, spec, a);
    }
    if Cleared(absences, at, key, spec) {
      var a :| ClearedBy(absences, at, key, spec, a);
      assert ClearedBy(more, at, key, spec, a);
    }
  }

  lemma ClearedGrows(absences: set<Absence>, more: set<Absence>, h: seq<Record<Acks, ACK>>)
    requires AllCleared(absences, h) && absences <= more
    ensures AllCleared(more, h)
  {
    forall i ensures ClearedAt(more, h, i) {
      assert ClearedAt(absences, h, i);
      forall key, spec ensures Cleared(absences, i, key, spec) ==> Cleared(more, i, key, spec) {
        StillCleared(absences, more, i, key, spec);
      }
    }
  }

  /** Every deleted acknowledgement rests on the absence of its endpoint, seen while its deletion was
      already intended on disk. */
  lemma {:induction false} DeletionHasAbsence(kit: Kit, absences: set<Absence>, h: seq<Record<Acks, ACK>>, j: nat, key: string)
    returns (i: nat)
    requires History(kit, h) && AllCleared(absences, h) && j < |h|
    requires key in StateOf(h[j]) && StateOf(h[j])[key].stage == Deleted
    ensures i < j && Removes(h[i]) && h[i].pending.value.payload.(stage := Deleted) == StateOf(h[j])[key]
    ensures Cleared(absences, i, key, StateOf(h[j])[key].spec)
  {
    HistoryShape(h, j);
    LifeCycle(kit, h, j - 1, key);
    if key in StateOf(h[j - 1]) && StateOf(h[j - 1])[key] == StateOf(h[j])[key] {
      i := DeletionHasAbsence(kit, absences, h, j - 1, key);
    } else {
      i := j - 1;
      EveryAckSound(kit, h, i);
      HistoryShape(h, i);
      assert SoundAt(kit, StateOf(h[i]), key) && StepAt(kit, h, i) && LegalAt(h, i) && ClearedAt(absences, h, i);
    }
  }

  /** Every acknowledgement was created under an intent begun only after its endpoint was seen absent. */
  lemma {:induction false} CreationHasAbsence(kit: Kit, absences: set<Absence>, h: seq<Record<Acks, ACK>>, j: nat, key: string)
    returns (i: nat, spec: Spec)
    requires History(kit, h) && AllCleared(absences, h) && j < |h| && key in StateOf(h[j])
    ensures i < j && Creates(h[i + 1]) && h[i + 1].pending.value.payload.key == key
    ensures Cleared(absences, i, key, spec) && StateOf(h[j])[key].spec == spec.(rest := StateOf(h[j])[key].spec.rest)
  {
    HistoryShape(h, j);
    LifeCycle(kit, h, j - 1, key);
    if key in StateOf(h[j - 1]) && StateOf(h[j])[key].spec == StateOf(h[j - 1])[key].spec {
      i, spec := CreationHasAbsence(kit, absences, h, j - 1, key);
    } else {
      i := CreationWasBegun(kit, h, j - 1, key);
      spec := h[i + 1].pending.value.payload.spec;
      assert ClearedAt(absences, h, i);
    }
  }

  lemma CreationWasBegun(kit: Kit, h: seq<Record<Acks, ACK>>, j: nat, key: string) returns (i: nat)
    requires History(kit, h) && j < |h| - 1 && key in StateOf(h[j + 1])
    requires key in StateOf(h[j]) ==> StateOf(h[j + 1])[key].spec != StateOf(h[j])[key].spec
    ensures i + 1 == j && h[i].pending.None? && Creates(h[j]) && h[j].pending.value.payload.key == key
    ensures StateOf(h[j + 1])[key].spec == h[j].pending.value.payload.spec.(rest := StateOf(h[j + 1])[key].spec.rest)
  {
    EveryAckSound(kit, h, j);
    HistoryShape(h, j);
    HistoryShape(h, j + 1);
    assert StepAt(kit, h, j) && LegalAt(h, j);
    i := j - 1;
    HistoryShape(h, i);
  }

  /** What holds on disk in every run, whenever it stops. */
  ghost predicate SiteOk(kit: Kit, world: World, disk: Disk<Acks, ACK>)
    reads world, disk
  {
    && Coherent(world.seen) && disk.Valid() && History(kit, disk.history)
    && AllJudged(world.seen.verdicts, disk.history) && AllCleared(world.seen.absences, disk.history)
  }

  // ---------------------------------------------------------------- a late activation

  /** A creation and its activation, stamped after the deadline. */
  function LateRun(domain: Domain, a: ACK): seq<Record<Acks, ACK>>
  {
    var r0 := Initial(domain);
    var r1 := Begun(r0, ADD, a);
    var r2 := Acknowledged(r1, map[a.key := a]);
    var r3 := Begun(r2, IDENTITY, Late(a));
    [r0, r1, r2, r3, Acknowledged(r3, map[a.key := Late(a)])]
  }

  function Late(a: ACK): ACK
  {
    a.(stage := Active, verifiedAt := a.verifyBy + 1)
  }

  /** The clock is read again for the stamp, so a verdict in time can be stamped late: such a run is
      legal and judged, and leaves an acknowledgement that no restart accepts. */
  lemma LateActivation(kit: Kit, domain: Domain, a: ACK, v: Verdict, absences: set<Absence>)
    requires Sound(kit, a.key, a) && a.stage == PendingCreation && a.verifiedAt == 0 && a.reason == ""
    requires v.at == 2 && v.ack == a && Cleared(absences, 0, a.key, a.spec)
    ensures
      var h := LateRun(domain, a);
      && History(kit, h) && AllJudged({v}, h) && AllCleared(absences, h) && h[4].pending.None?
      && a.key in StateOf(h[4]) && !WellFormed(kit, a.key, StateOf(h[4])[a.key])
  {
    var h := LateRun(domain, a);
    assert map[a.key := a][a.key := Late(a)] == map[a.key := Late(a)];
    assert map[][a.key := a] == map[a.key := a];
    forall i ensures LegalAt(h, i) && StepAt(kit, h, i) && JudgedAt({v}, h, i) && ClearedAt(absences, h, i) {
      if 0 <= i < 4 { LateStep(kit, domain, a, v, i); }
    }
  }

  lemma LateStep(kit: Kit, domain: Domain, a: ACK, v: Verdict, i: nat)
    requires Sound(kit, a.key, a) && a.stage == PendingCreation && a.verifiedAt == 0 && a.reason == ""
    requires v.at == 2 && v.ack == a && i < 4
    ensures var h := LateRun(domain, a); DiskStep(h[i], h[i + 1]) && Step(kit, h[i], h[i + 1]) && JudgedAt({v}, h, i)
  {
    var h := LateRun(domain, a);
    assert map[a.key := a][a.key := Late(a)] == map[a.key := Late(a)];
    assert map[][a.key := a] == map[a.key := a];
    assert v in {v};
  }
}

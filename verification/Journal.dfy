/** The write-ahead ownership journal: at most one outstanding intent, and a
    permanent block after any failed durable write. `Disk` survives a crash of
    the process; a `Journal` object is what one process holds in memory. */
module OwnershipJournal {
  import opened Basics

  const JOURNAL_VERSION := 1
  const MAX_SEQUENCE := 0xFFFF_FFFF_FFFF_FFFF

  datatype Domain = Domain(installationUID: string, nodeUID: string, bootID: string,
                           networkNamespace: string, configDigest: string)

  datatype Intent<+P> = Intent(sequence: nat, operation: string, payload: P)

  /** `state` is None while the stored JSON state is still `null`. */
  datatype Record<+S, +P> = Record(version: nat, domain: Domain, sequence: nat,
                                   state: Option<S>, pending: Option<Intent<P>>)

  /** What the journal directory holds: nothing, a lock without a journal, or both. */
  datatype Files<+S, +P> = NoDirectory | NoJournal | Stored(record: Record<S, P>)

  datatype Snap<+S, +P> = Blocked | Snap(state: Option<S>, pending: Option<Intent<P>>)

  predicate ExplicitOperation(operation: string)
  {
    operation != "" && !IsSpace(operation[0]) && !IsSpace(operation[|operation| - 1])
  }

  /** Nonempty and unchanged by `strings.TrimSpace`. */
  ghost predicate Trimmed(operation: string)
  {
    |operation| > 0 && !IsSpace(operation[0]) && !IsSpace(operation[|operation| - 1])
  }

  function Initial<S, P>(domain: Domain): Record<S, P>
  {
    Record(JOURNAL_VERSION, domain, 0, None, None)
  }

  function Begun<S, P>(r: Record<S, P>, operation: string, payload: P): Record<S, P>
  {
    r.(sequence := r.sequence + 1, pending := Some(Intent(r.sequence + 1, operation, payload)))
  }

  function Acknowledged<S, P>(r: Record<S, P>, state: S): Record<S, P>
  {
    r.(pending := None, state := Some(state))
  }

  ghost predicate BeginStep<S, P>(a: Record<S, P>, b: Record<S, P>)
  {
    && a.pending.None? && a.sequence < MAX_SEQUENCE
    && b.pending.Some? && Trimmed(b.pending.value.operation)
    && b == Begun(a, b.pending.value.operation, b.pending.value.payload)
  }

  ghost predicate CommitStep<S, P>(a: Record<S, P>, b: Record<S, P>)
  {
    a.pending.Some? && b.state.Some? && b == Acknowledged(a, b.state.value)
  }

  ghost predicate DiskStep<S, P>(a: Record<S, P>, b: Record<S, P>)
  {
    BeginStep(a, b) || CommitStep(a, b)
  }

  ghost predicate LegalAt<S, P>(h: seq<Record<S, P>>, i: int)
  {
    0 <= i < |h| - 1 ==> DiskStep(h[i], h[i + 1])
  }

  /** Every record the disk ever held, oldest first. */
  ghost predicate LegalHistory<S, P>(h: seq<Record<S, P>>)
  {
    (h != [] ==> h[0] == Initial(h[0].domain)) && forall i :: LegalAt(h, i)
  }

  lemma LegalExtends<S, P>(h: seq<Record<S, P>>, next: Record<S, P>)
    requires LegalHistory(h)
    requires if h == [] then next == Initial(next.domain) else DiskStep(h[|h| - 1], next)
    ensures LegalHistory(h + [next])
  {
    forall i ensures LegalAt(h + [next], i) { assert LegalAt(h, i); }
  }

  class Disk<S, P> {
    var files: Files<S, P>
    ghost var history: seq<Record<S, P>>
    /** Whether writes, locks and serialization never fail; nothing but progress depends on it. */
    const reliable: bool

    ghost predicate Valid()
      reads this
    {
      && LegalHistory(history)
      && (files.Stored? <==> history != [])
      && (files.Stored? ==> files.record == history[|history| - 1])
    }

    constructor (reliable: bool)
      ensures Valid() && files.NoDirectory? && history == [] && this.reliable == reliable
    {
      files, history, this.reliable := NoDirectory, [], reliable;
    }

    /** One durable write. The rename precedes the directory sync, so a failed
        write may or may not have replaced the record. */
    method Replace(next: Record<S, P>) returns (ok: bool)
      requires Valid()
      requires if history == [] then next == Initial(next.domain) else DiskStep(history[|history| - 1], next)
      modifies this
      ensures Valid()
      ensures history == old(history) + [next] || (!ok && history == old(history) && files == old(files))
      ensures old(files).Stored? ==> files.Stored?
      ensures reliable ==> ok
    {
      var landed: bool := *;
      ok := *;
      ok := ok || reliable;
      if ok || landed {
        LegalExtends(history, next);
        files, history := Stored(next), history + [next];
      }
    }
  }

  class Journal<S, P> {
    const disk: Disk<S, P>
    var record: Record<S, P>
    var blocked: bool
    var closed: bool

    /** Memory mirrors the disk, except that after a failed write the disk may
        already hold the one successor that write attempted. */
    ghost predicate Valid()
      reads this, disk
    {
      && disk.Valid() && disk.files.Stored?
      && (disk.files.record == record || (blocked && DiskStep(record, disk.files.record)))
    }

    constructor Attach(disk: Disk<S, P>, record: Record<S, P>)
      ensures this.disk == disk && this.record == record && !blocked && !closed
    {
      this.disk, this.record, blocked, closed := disk, record, false, false;
    }

    /** `faulty` stands for any failing directory, lock, permission or checksum test. */
    static method Open(disk: Disk<S, P>, domain: Domain, create: bool, faulty: bool)
      returns (j: Journal?<S, P>)
      requires disk.Valid()
      modifies disk
      ensures disk.Valid()
      ensures j != null ==> fresh(j) && j.disk == disk && j.Valid() && !j.blocked && !j.closed
                            && j.record.domain == domain && disk.files == Stored(j.record)
      ensures old(disk.files).Stored? ==> disk.files == old(disk.files) && disk.history == old(disk.history)
      // A journal this code wrote is never rejected for its contents.
      ensures old(disk.files).Stored? && !faulty ==> (j != null <==> old(disk.files.record).domain == domain)
      // Missing metadata never becomes fresh ownership.
      ensures old(disk.files).NoJournal? || (old(disk.files).NoDirectory? && !create) ==> j == null
      ensures !old(disk.files).Stored? ==> disk.history == [] || disk.history == [Initial(domain)]
      ensures j != null && !old(disk.files).Stored? ==> disk.history == [Initial(domain)]
    {
      j := null;
      if faulty { return; }
      if disk.files.NoDirectory? {
        if create {
          disk.files := NoJournal;
          var record: Record<S, P> := Initial(domain);
          var ok := disk.Replace(record);
          if ok { j := new Journal<S, P>.Attach(disk, record); }
        }
      } else if disk.files.Stored? {
        var r := disk.files.record;
        HistoryShape(disk.history, |disk.history| - 1);
        if r.version == JOURNAL_VERSION && r.domain == domain &&
           (r.pending.None? || (r.pending.value.sequence == r.sequence && r.sequence != 0
                                && !Blank(r.pending.value.operation))) {
          j := new Journal<S, P>.Attach(disk, r);
        }
      }
    }

    /** False once closed, blocked, or when the held lock can no longer be verified. */
    method Check() returns (ok: bool)
      requires Valid()
      modifies this`blocked
      ensures Valid()
      ensures ok ==> !blocked && !closed && !old(blocked)
      ensures !ok ==> blocked || closed
      ensures old(blocked) ==> blocked
      ensures disk.reliable ==> blocked == old(blocked) && (ok <==> !blocked && !closed)
    {
      if closed || blocked { return false; }
      var lockHeld: bool := *;
      lockHeld := lockHeld || disk.reliable;
      if !lockHeld { blocked := true; }
      ok := lockHeld;
    }

    method Snapshot() returns (s: Snap<S, P>)
      requires Valid()
      modifies this`blocked
      ensures Valid()
      ensures s.Snap? ==> !blocked && !closed && !old(blocked) && disk.files.record == record
                          && s == Snap(record.state, record.pending)
      ensures s.Blocked? ==> blocked || closed
      ensures old(blocked) ==> blocked
      ensures disk.reliable ==> blocked == old(blocked) && (s.Snap? <==> !blocked && !closed)
    {
      var ok := Check();
      s := if ok then Snap(record.state, record.pending) else Blocked;
    }

    ghost predicate CanBegin(operation: string)
      reads this
    {
      !blocked && !closed && record.pending.None? && record.sequence < MAX_SEQUENCE && Trimmed(operation)
    }

    method Begin(operation: string, payload: P) returns (sequence: Option<nat>)
      requires Valid()
      modifies this`record, this`blocked, disk
      ensures Valid()
      ensures old(blocked) ==> blocked && sequence.None?
      ensures disk.reliable ==> (sequence.Some? <==> old(CanBegin(operation))) && blocked == old(blocked)
      ensures sequence.Some? ==>
        && !blocked && !closed && old(record.pending).None? && Trimmed(operation)
        && record == Begun(old(record), operation, payload) && sequence.value == record.sequence
        && disk.history == old(disk.history) + [record] && disk.files == Stored(record)
      ensures sequence.None? ==>
        && record == old(record)
        && (|| (disk.history == old(disk.history) && disk.files == old(disk.files))
            || (&& blocked && !old(blocked) && !closed && old(record.pending).None?
                && disk.files == Stored(Begun(record, operation, payload))
                && disk.history == old(disk.history) + [Begun(record, operation, payload)]))
    {
      var ok := Check();
      if !ok || record.pending.Some? || !ExplicitOperation(operation) || record.sequence >= MAX_SEQUENCE {
        return None;
      }
      var marshalled: bool := *;
      if !marshalled && !disk.reliable { return None; }
      var next := Begun(record, operation, payload);
      assert DiskStep(record, next);
      var persisted := disk.Replace(next);
      if !persisted {
        blocked := true;
        return None;
      }
      record := next;
      return Some(next.sequence);
    }

    ghost predicate CanCommit(sequence: nat)
      reads this
    {
      !blocked && !closed && record.pending.Some? && record.pending.value.sequence == sequence
    }

    method Commit(sequence: nat, state: S) returns (ok: bool)
      requires Valid()
      modifies this`record, this`blocked, disk
      ensures Valid()
      ensures old(blocked) ==> blocked && !ok
      ensures disk.reliable ==> blocked == old(blocked) && (ok <==> old(CanCommit(sequence)))
      ensures ok ==>
        && !blocked && !closed && old(record.pending).Some? && old(record.pending).value.sequence == sequence
        && record == Acknowledged(old(record), state)
        && disk.history == old(disk.history) + [record] && disk.files == Stored(record)
      ensures !ok ==>
        && record == old(record)
        && (|| (disk.history == old(disk.history) && disk.files == old(disk.files))
            || (&& blocked && !old(blocked) && !closed && old(record.pending).Some?
                && old(record.pending).value.sequence == sequence
                && disk.files == Stored(Acknowledged(record, state))
                && disk.history == old(disk.history) + [Acknowledged(record, state)]))
    {
      ok := Check();
      if !ok || record.pending.None? || record.pending.value.sequence != sequence { return false; }
      var marshalled: bool := *;
      if !marshalled && !disk.reliable { return false; }
      var next := Acknowledged(record, state);
      assert DiskStep(record, next);
      ok := disk.Replace(next);
      if !ok {
        blocked := true;
        return;
      }
      record := next;
    }

    method Close()
      modifies this`closed
      ensures closed
    {
      closed := true;
    }
  }

  /** Begins and commits alternate on disk, and the sequence number counts the begins:
      the pending intent, when there is one, always carries the current sequence. */
  lemma {:induction false} HistoryShape<S, P>(h: seq<Record<S, P>>, k: nat)
    requires LegalHistory(h) && k < |h|
    ensures h[k].sequence == (k + 1) / 2 && (h[k].pending.Some? <==> k % 2 == 1)
    ensures h[k].version == JOURNAL_VERSION && h[k].domain == h[0].domain
    ensures h[k].pending.Some? ==>
      h[k].pending.value.sequence == h[k].sequence > 0 && Trimmed(h[k].pending.value.operation)
    ensures h[k].state.None? <==> k < 2
    ensures h[k].sequence <= MAX_SEQUENCE
  {
    if k > 0 {
      HistoryShape(h, k - 1);
      assert LegalAt(h, k - 1);
    }
  }

  /** Across any number of failures and restarts: a later begin has a larger sequence
      number, and no sequence number is acknowledged twice. */
  lemma BeginsIncreaseAndCommitsAreUnique<S, P>(h: seq<Record<S, P>>, i: nat, j: nat)
    requires LegalHistory(h) && i < j < |h| - 1
    ensures BeginStep(h[i], h[i + 1]) && BeginStep(h[j], h[j + 1]) ==> h[i + 1].sequence < h[j + 1].sequence
    ensures CommitStep(h[i], h[i + 1]) && CommitStep(h[j], h[j + 1]) ==> h[i].sequence < h[j].sequence
  {
    HistoryShape(h, i);
    HistoryShape(h, i + 1);
    HistoryShape(h, j);
    HistoryShape(h, j + 1);
  }

  datatype Call<+S, +P> = Reopen(faulty: bool) | CallBegin(operation: string, payload: P)
                        | CallCommit(sequence: nat, state: S) | CallSnapshot | CallClose

  /** The most general client: any calls in any order, any persist outcome, any number
      of crashes and reopens. The numbers returned by successful begins increase. */
  method AnyRun<S, P>(disk: Disk<S, P>, domain: Domain, calls: seq<Call<S, P>>) returns (issued: seq<nat>)
    requires disk.Valid()
    modifies disk
    ensures disk.Valid()
    ensures old(disk.history) <= disk.history
    ensures forall i, j | 0 <= i < j < |issued| :: issued[i] < issued[j]
    ensures forall n | n in issued :: old(|disk.history|) / 2 < n <= |disk.history| / 2
  {
    issued := [];
    var j: Journal?<S, P> := null;
    for k := 0 to |calls|
      invariant disk.Valid() && old(disk.history) <= disk.history
      invariant j != null ==> fresh(j) && j.disk == disk && j.Valid()
      invariant forall i, l | 0 <= i < l < |issued| :: issued[i] < issued[l]
      invariant forall n | n in issued :: old(|disk.history|) / 2 < n <= |disk.history| / 2
    {
      match calls[k]
      case Reopen(faulty) => j := Journal.Open(disk, domain, true, faulty);
      case CallBegin(operation, payload) =>
        if j != null {
          ghost var before := disk.history;
          var s := j.Begin(operation, payload);
          if s.Some? {
            HistoryShape(before, |before| - 1);
            assert forall i | 0 <= i < |issued| :: issued[i] in issued;
            issued := issued + [s.value];
          }
        }
      case CallCommit(sequence, state) => if j != null { var _ := j.Commit(sequence, state); }
      case CallSnapshot => if j != null { var _ := j.Snapshot(); }
      case CallClose => if j != null { j.Close(); }
    }
  }
}

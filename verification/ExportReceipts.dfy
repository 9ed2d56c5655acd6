/** Durable UUID receipts of exported routes, and what their journal may ever hold. */
module ExportReceipts {
  import opened Basics
  import opened OwnershipJournal
  import opened Endpoints
  import opened SpeakerEnvironment

  const CHECKPOINT := "export-checkpoint"
  const ADD := "export-add"
  const DELETE := "export-delete"

  datatype Receipt = Receipt(owned: Owned, nlri: string, attributes: seq<string>, incarnation: string)

  datatype ExportState = ExportState(version: nat, incarnation: string, receipts: seq<Receipt>)

  datatype Payload = Checkpoint(state: ExportState) | RouteIntent(incarnation: string, route: Receipt)

  type ExportRecord = Record<ExportState, Payload>

  function StateOf(r: ExportRecord): ExportState
  {
    if r.state.Some? then r.state.value else ExportState(1, "", [])
  }

  function DurableRoute(c: Codec, ep: LocalEndpoint, incarnation: string, id: string): Option<Receipt>
  {
    var route := c.build(ep);
    if route.None? || route.value.nlri.bytes.None? then None
    else Some(Receipt(Owned(ep, id), route.value.nlri.bytes.value, route.value.attributes, incarnation))
  }

  predicate SamePayload(a: Receipt, b: Receipt)
  {
    a.nlri == b.nlri && a.attributes == b.attributes
  }

  function UUID(c: Codec, r: Receipt): Option<string>
  {
    c.parseUUID(r.owned.pathUUID)
  }

  predicate ValidReceipt(c: Codec, incarnation: string, r: Receipt)
  {
    var want := DurableRoute(c, r.owned.endpoint, r.incarnation, r.owned.pathUUID);
    UUID(c, r).Some? && r.incarnation == incarnation && want.Some? && SamePayload(want.value, r)
  }

  /** The endpoint builds into exactly this NLRI and these attributes. */
  ghost predicate BuildsInto(c: Codec, ep: LocalEndpoint, nlri: string, attributes: seq<string>)
  {
    c.build(ep).Some? && c.build(ep).value.attributes == attributes && c.build(ep).value.nlri.bytes == Some(nlri)
  }

  lemma DurableRouteIff(c: Codec, ep: LocalEndpoint, incarnation: string, id: string, r: Receipt)
    ensures DurableRoute(c, ep, incarnation, id) == Some(r) <==>
      r.owned.endpoint == ep && r.owned.pathUUID == id && r.incarnation == incarnation && BuildsInto(c, ep, r.nlri, r.attributes)
  {
  }

  lemma ValidReceiptIff(c: Codec, incarnation: string, r: Receipt)
    ensures ValidReceipt(c, incarnation, r) <==>
      r.incarnation == incarnation && c.parseUUID(r.owned.pathUUID) != None
      && BuildsInto(c, r.owned.endpoint, r.nlri, r.attributes)
  {
  }

  ghost predicate Distinct(c: Codec, q: seq<Receipt>)
  {
    forall i, j | 0 <= i < j < |q| :: UUID(c, q[i]) != UUID(c, q[j]) && q[i].nlri != q[j].nlri
  }

  /** One incarnation, unique UUIDs, unique wire routes, and payloads that match their endpoint. */
  ghost predicate ValidState(c: Codec, s: ExportState)
  {
    && s.version == 1 && (s.incarnation == "" ==> s.receipts == [])
    && (forall i | 0 <= i < |s.receipts| :: ValidReceipt(c, s.incarnation, s.receipts[i]))
    && Distinct(c, s.receipts)
  }

  ghost predicate Accepted(c: Codec, incarnation: string, q: seq<Receipt>)
  {
    (forall i | 0 <= i < |q| :: ValidReceipt(c, incarnation, q[i])) && Distinct(c, q)
  }

  ghost function Routes(q: seq<Receipt>): set<string>
  {
    set r | r in q :: r.nlri
  }

  ghost function IDs(c: Codec, q: seq<Receipt>): set<string>
  {
    set r | r in q && UUID(c, r).Some? :: UUID(c, r).value
  }

  lemma UsedAfter(c: Codec, q: seq<Receipt>, r: Receipt)
    requires UUID(c, r).Some?
    ensures Routes(q + [r]) == Routes(q) + {r.nlri} && IDs(c, q + [r]) == IDs(c, q) + {UUID(c, r).value}
  {
    var all := q + [r];
    forall x ensures x in Routes(all) <==> x in Routes(q) + {r.nlri} {
      if x in Routes(q) {
        var y :| y in q && y.nlri == x;
        assert y in all;
      }
      assert r in all;
    }
    forall x ensures x in IDs(c, all) <==> x in IDs(c, q) + {UUID(c, r).value} {
      if x in IDs(c, q) {
        var y :| y in q && UUID(c, y) == Some(x);
        assert y in all;
      }
      assert r in all;
    }
  }

  lemma AcceptsNext(c: Codec, incarnation: string, q: seq<Receipt>, r: Receipt)
    requires Accepted(c, incarnation, q)
    ensures Accepted(c, incarnation, q + [r]) <==>
      ValidReceipt(c, incarnation, r) && r.nlri !in Routes(q) && UUID(c, r).value !in IDs(c, q)
  {
    var all := q + [r];
    if Accepted(c, incarnation, all) {
      assert ValidReceipt(c, incarnation, all[|q|]);
      forall x | x in q ensures x.nlri != r.nlri && UUID(c, x) != UUID(c, r) {
        var i :| 0 <= i < |q| && q[i] == x;
        assert all[i] == x && all[|q|] == r;
      }
    }
    if ValidReceipt(c, incarnation, r) && r.nlri !in Routes(q) && UUID(c, r).value !in IDs(c, q) {
      forall i, j | 0 <= i < j < |all| ensures UUID(c, all[i]) != UUID(c, all[j]) && all[i].nlri != all[j].nlri {
        if j == |q| { assert q[i] in q && ValidReceipt(c, incarnation, q[i]); }
      }
    }
  }

  lemma AcceptsPrefix(c: Codec, incarnation: string, q: seq<Receipt>, n: nat)
    requires n <= |q| && Accepted(c, incarnation, q)
    ensures Accepted(c, incarnation, q[..n])
  {
  }

  method Validate(c: Codec, s: ExportState) returns (ok: bool)
    ensures ok <==> ValidState(c, s)
  {
    if s.version != 1 || (s.incarnation == "" && |s.receipts| != 0) { return false; }
    var keys: set<string>, ids: set<string> := {}, {};
    for i := 0 to |s.receipts|
      invariant Accepted(c, s.incarnation, s.receipts[..i])
      invariant keys == Routes(s.receipts[..i]) && ids == IDs(c, s.receipts[..i])
    {
      var r := s.receipts[i];
      assert s.receipts[..i + 1] == s.receipts[..i] + [r];
      AcceptsNext(c, s.incarnation, s.receipts[..i], r);
      if !ValidReceipt(c, s.incarnation, r) || UUID(c, r).value in ids || r.nlri in keys {
        if Accepted(c, s.incarnation, s.receipts) { AcceptsPrefix(c, s.incarnation, s.receipts, i + 1); }
        return false;
      }
      UsedAfter(c, s.receipts[..i], r);
      keys, ids := keys + {r.nlri}, ids + {UUID(c, r).value};
    }
    assert s.receipts[..|s.receipts|] == s.receipts;
    return true;
  }

  // ---------------------------------------------------------------- observing receipts

  function Matching(paths: seq<RibPath>, nlri: string): (found: seq<RibPath>)
    ensures found == [] <==> !Carries(paths, nlri)
    ensures forall p | p in found :: LocalWith(p, nlri)
  {
    if paths == [] then []
    else
      var init := Matching(paths[..|paths| - 1], nlri);
      var last := paths[|paths| - 1];
      assert Carries(paths, nlri) <==> Carries(paths[..|paths| - 1], nlri) || LocalWith(last, nlri) by {
        CarriesLast(paths, nlri);
      }
      if LocalWith(last, nlri) then init + [last] else init
  }

  lemma CarriesLast(paths: seq<RibPath>, nlri: string)
    requires paths != []
    ensures Carries(paths, nlri) <==> Carries(paths[..|paths| - 1], nlri) || LocalWith(paths[|paths| - 1], nlri)
  {
    var init := paths[..|paths| - 1];
    if i :| 0 <= i < |paths| && LocalWith(paths[i], nlri) {
      if i < |init| { assert LocalWith(init[i], nlri); }
    }
    if i :| 0 <= i < |init| && LocalWith(init[i], nlri) { assert LocalWith(paths[i], nlri); }
  }

  /** The single local path of a receipt, unchanged, under the UUID the receipt names. */
  predicate ReadsBack(c: Codec, found: seq<RibPath>, ep: LocalEndpoint, id: string)
  {
    |found| == 1 && RibPathMatches(c, found[0], ep) && (found[0].pathUUID == "" || found[0].pathUUID == id)
  }

  predicate Subsequence(a: seq<Receipt>, b: seq<Receipt>)
  {
    if a == [] then true
    else if b == [] then false
    else || (a[|a| - 1] == b[|b| - 1] && Subsequence(a[..|a| - 1], b[..|b| - 1]))
         || Subsequence(a, b[..|b| - 1])
  }

  lemma {:induction false} SubsequenceMembers(a: seq<Receipt>, b: seq<Receipt>)
    requires Subsequence(a, b)
    ensures forall r | r in a :: r in b
  {
    if a != [] && b != [] {
      var a', b' := a[..|a| - 1], b[..|b| - 1];
      assert a == a' + [a[|a| - 1]];
      if a[|a| - 1] == b[|b| - 1] && Subsequence(a', b') {
        SubsequenceMembers(a', b');
      } else {
        SubsequenceMembers(a, b');
      }
    }
  }

  lemma DistinctAppends(c: Codec, a: seq<Receipt>, b: seq<Receipt>, r: Receipt)
    requires Distinct(c, a) && Distinct(c, b + [r]) && forall x | x in a :: x in b
    ensures Distinct(c, a + [r])
  {
    forall i | 0 <= i < |a| ensures UUID(c, a[i]) != UUID(c, r) && a[i].nlri != r.nlri {
      assert a[i] in a;
      var j :| 0 <= j < |b| && b[j] == a[i];
      assert (b + [r])[j] == b[j] && (b + [r])[|b|] == r;
    }
  }

  lemma {:induction false} SubsequenceDistinct(c: Codec, a: seq<Receipt>, b: seq<Receipt>)
    requires Subsequence(a, b) && Distinct(c, b)
    ensures Distinct(c, a)
  {
    if a != [] && b != [] {
      var a', b', last := a[..|a| - 1], b[..|b| - 1], a[|a| - 1];
      if last == b[|b| - 1] && Subsequence(a', b') {
        SubsequenceDistinct(c, a', b');
        SubsequenceMembers(a', b');
        assert a == a' + [last] && b == b' + [last];
        DistinctAppends(c, a', b', last);
      } else {
        SubsequenceDistinct(c, a, b');
      }
    }
  }

  lemma SubsequenceKeeps(c: Codec, a: seq<Receipt>, b: seq<Receipt>)
    requires Subsequence(a, b)
    ensures forall r | r in a :: r in b
    ensures Distinct(c, b) ==> Distinct(c, a)
  {
    SubsequenceMembers(a, b);
    if Distinct(c, b) { SubsequenceDistinct(c, a, b); }
  }

  lemma {:induction false} SubsequenceReflexive(a: seq<Receipt>)
    ensures Subsequence(a, a)
  {
    if a != [] { SubsequenceReflexive(a[..|a| - 1]); }
  }

  lemma {:induction false} SubsequenceTransitive(x: seq<Receipt>, y: seq<Receipt>, z: seq<Receipt>)
    requires Subsequence(x, y) && Subsequence(y, z)
    ensures Subsequence(x, z)
    decreases |x| + |y| + |z|
  {
    if x != [] && y != [] && z != [] {
      if y[|y| - 1] == z[|z| - 1] && Subsequence(y[..|y| - 1], z[..|z| - 1]) {
        if x[|x| - 1] == y[|y| - 1] && Subsequence(x[..|x| - 1], y[..|y| - 1]) {
          SubsequenceTransitive(x[..|x| - 1], y[..|y| - 1], z[..|z| - 1]);
        } else {
          SubsequenceTransitive(x, y[..|y| - 1], z[..|z| - 1]);
        }
      } else {
        SubsequenceTransitive(x, y, z[..|z| - 1]);
      }
    }
  }

  /** Receipts whose exact path is still there; None when a path is retained from another
      incarnation, duplicated or changed. Receipts without a path are dropped. */
  function Retain(c: Codec, o: Observation, receipts: seq<Receipt>): Option<seq<Receipt>>
  {
    if receipts == [] then Some([])
    else
      var r, kept := receipts[|receipts| - 1], Retain(c, o, receipts[..|receipts| - 1]);
      var found := Matching(o.paths, r.nlri);
      if kept.None? || found == [] then kept
      else if o.incarnation != r.incarnation || !ReadsBack(c, found, r.owned.endpoint, r.owned.pathUUID) then None
      else Some(kept.value + [r])
  }

  lemma {:induction false} RetainSubsequence(c: Codec, o: Observation, receipts: seq<Receipt>)
    requires Retain(c, o, receipts).Some?
    ensures Subsequence(Retain(c, o, receipts).value, receipts)
  {
    if receipts != [] {
      var init, last := receipts[..|receipts| - 1], receipts[|receipts| - 1];
      RetainSubsequence(c, o, init);
      var kept := Retain(c, o, init).value;
      assert (kept + [last])[..|kept|] == kept;
    }
  }

  lemma {:induction false} RetainMembers(c: Codec, o: Observation, receipts: seq<Receipt>)
    requires Retain(c, o, receipts).Some?
    ensures var kept := Retain(c, o, receipts).value;
      && (forall r | r in kept :: r.incarnation == o.incarnation && Carries(o.paths, r.nlri))
      && (forall r | r in receipts :: r in kept <==> Carries(o.paths, r.nlri))
  {
    if receipts != [] {
      RetainMembers(c, o, receipts[..|receipts| - 1]);
      assert receipts == receipts[..|receipts| - 1] + [receipts[|receipts| - 1]];
    }
  }

  /** Its one path, unchanged, in the receipt's incarnation. */
  predicate Confirms(c: Codec, o: Observation, r: Receipt)
  {
    o.incarnation == r.incarnation && ReadsBack(c, Matching(o.paths, r.nlri), r.owned.endpoint, r.owned.pathUUID)
  }

  /** Among the paths only this one is local and carries the NLRI. */
  ghost predicate AloneAt(paths: seq<RibPath>, nlri: string, i: int)
  {
    && 0 <= i < |paths| && paths[i].local && paths[i].nlri.Some? && paths[i].nlri.value.bytes == Some(nlri)
    && forall j | 0 <= j < |paths| && j != i :: !(paths[j].local && paths[j].nlri.Some? && paths[j].nlri.value.bytes == Some(nlri))
  }

  lemma {:induction false} AloneMatches(paths: seq<RibPath>, nlri: string, i: int)
    requires AloneAt(paths, nlri, i)
    ensures Matching(paths, nlri) == [paths[i]]
  {
    var init := paths[..|paths| - 1];
    if i < |init| {
      AloneMatches(init, nlri, i);
    } else {
      forall j | 0 <= j < |init| ensures !LocalWith(init[j], nlri) { assert init[j] == paths[j]; }
      assert Matching(init, nlri) == [];
    }
  }

  lemma {:induction false} MatchedAlone(paths: seq<RibPath>, nlri: string) returns (i: int)
    requires |Matching(paths, nlri)| == 1
    ensures AloneAt(paths, nlri, i)
  {
    var init := paths[..|paths| - 1];
    if LocalWith(paths[|paths| - 1], nlri) {
      i := |paths| - 1;
      assert Matching(init, nlri) == [];
      forall j | 0 <= j < |paths| && j != i ensures !LocalWith(paths[j], nlri) { assert init[j] == paths[j]; }
    } else {
      i := MatchedAlone(init, nlri);
      forall j | 0 <= j < |paths| && j != i ensures !LocalWith(paths[j], nlri) {
        if j < |init| { assert init[j] == paths[j]; }
      }
    }
  }

  /** What confirms a receipt, path by path: in its incarnation, a path that alone carries its NLRI, shows its
      endpoint and has its UUID or none. */
  lemma ConfirmsIff(c: Codec, o: Observation, r: Receipt)
    ensures Confirms(c, o, r) <==>
      o.incarnation == r.incarnation && exists i :: AloneAt(o.paths, r.nlri, i) && Shows(c, o.paths[i], r.owned.endpoint)
                                                   && o.paths[i].pathUUID in {"", r.owned.pathUUID}
  {
    if |Matching(o.paths, r.nlri)| == 1 {
      var i := MatchedAlone(o.paths, r.nlri);
      AloneMatches(o.paths, r.nlri, i);
    }
    forall i | AloneAt(o.paths, r.nlri, i) ensures Matching(o.paths, r.nlri) == [o.paths[i]] {
      AloneMatches(o.paths, r.nlri, i);
    }
  }

  lemma {:induction false} RetainIff(c: Codec, o: Observation, receipts: seq<Receipt>)
    ensures Retain(c, o, receipts).Some? <==> forall r | r in receipts :: Carries(o.paths, r.nlri) ==> Confirms(c, o, r)
  {
    if receipts != [] {
      var init, last := receipts[..|receipts| - 1], receipts[|receipts| - 1];
      RetainIff(c, o, init);
      assert receipts == init + [last];
    }
  }

  /** The receipts are retained exactly when every one with a path is confirmed by it. Then exactly
      those survive, in their order. */
  lemma RetainSound(c: Codec, o: Observation, receipts: seq<Receipt>)
    ensures Retain(c, o, receipts).Some? <==> forall r | r in receipts :: Carries(o.paths, r.nlri) ==> Confirms(c, o, r)
    ensures Retain(c, o, receipts).Some? ==>
      var kept := Retain(c, o, receipts).value;
      && Subsequence(kept, receipts)
      && (forall r | r in kept :: Carries(o.paths, r.nlri) && Confirms(c, o, r))
      && (forall r | r in receipts :: r in kept <==> Carries(o.paths, r.nlri))
  {
    RetainIff(c, o, receipts);
    if Retain(c, o, receipts).Some? {
      RetainSubsequence(c, o, receipts);
      RetainMembers(c, o, receipts);
      SubsequenceMembers(Retain(c, o, receipts).value, receipts);
    }
  }

  function WithoutReceipt(receipts: seq<Receipt>, id: string): (q: seq<Receipt>)
    ensures Subsequence(q, receipts)
    ensures forall r :: r in q <==> r in receipts && r.owned.pathUUID != id
  {
    if receipts == [] then []
    else
      var r, init := receipts[|receipts| - 1], WithoutReceipt(receipts[..|receipts| - 1], id);
      assert receipts == receipts[..|receipts| - 1] + [r];
      if r.owned.pathUUID != id then
        assert (init + [r])[..|init|] == init;
        init + [r]
      else init
  }

  // ---------------------------------------------------------------- the journal's history

  ghost predicate LegalIntent(c: Codec, s: ExportState, intent: Intent<Payload>)
  {
    var p := intent.payload;
    if intent.operation == CHECKPOINT then
      p.Checkpoint? && p.state.version == 1 && Subsequence(p.state.receipts, s.receipts)
    else if intent.operation == ADD then
      && p.RouteIntent? && p.incarnation == s.incarnation != ""
      && DurableRoute(c, p.route.owned.endpoint, p.incarnation, "") == Some(p.route)
      && (forall r | r in s.receipts :: r.nlri != p.route.nlri)
    else
      && intent.operation == DELETE && p.RouteIntent? && p.incarnation == s.incarnation && p.route in s.receipts
  }

  /** Only receipts already held, in the same incarnation. */
  ghost predicate Shrinks(s: ExportState, next: ExportState)
  {
    && next.version == 1 && next.incarnation != "" && Subsequence(next.receipts, s.receipts)
    && (next.receipts != [] ==> next.incarnation == s.incarnation)
  }

  function Claimed(intent: Intent<Payload>, id: string): Receipt
    requires intent.payload.RouteIntent?
  {
    intent.payload.route.(owned := Owned(intent.payload.route.owned.endpoint, id))
  }

  /** The commit of an Add: the intended route under a new UUID, appended. */
  ghost predicate AddAcknowledges(c: Codec, a: ExportRecord, next: ExportState, r: Receipt)
  {
    && a.pending.Some? && a.pending.value.operation == ADD && a.pending.value.payload.RouteIntent?
    && r == Claimed(a.pending.value, r.owned.pathUUID) && UUID(c, r).Some?
    && (forall x | x in StateOf(a).receipts :: UUID(c, x) != UUID(c, r))
    && next == StateOf(a).(receipts := StateOf(a).receipts + [r])
  }

  ghost predicate LegalResult(c: Codec, a: ExportRecord, next: ExportState)
  {
    || Shrinks(StateOf(a), next)
    || (next.receipts != [] && AddAcknowledges(c, a, next, next.receipts[|next.receipts| - 1]))
  }

  ghost predicate ExportStep(c: Codec, a: ExportRecord, b: ExportRecord)
  {
    || (BeginStep(a, b) && LegalIntent(c, StateOf(a), b.pending.value))
    || (CommitStep(a, b) && LegalResult(c, a, b.state.value))
  }

  ghost predicate ExportStepAt(c: Codec, h: seq<ExportRecord>, i: int)
  {
    0 <= i < |h| - 1 ==> ExportStep(c, h[i], h[i + 1])
  }

  ghost predicate ExportHistory(c: Codec, h: seq<ExportRecord>)
  {
    LegalHistory(h) && forall i :: ExportStepAt(c, h, i)
  }

  lemma HistoryExtends(c: Codec, h: seq<ExportRecord>, next: ExportRecord)
    requires ExportHistory(c, h) && h != [] && ExportStep(c, h[|h| - 1], next)
    ensures ExportHistory(c, h + [next])
  {
    var g := h + [next];
    LegalExtends(h, next);
    forall i ensures ExportStepAt(c, g, i) { assert ExportStepAt(c, h, i); }
  }

  lemma PendingIsLegal(c: Codec, h: seq<ExportRecord>, k: nat)
    requires ExportHistory(c, h) && k < |h| && h[k].pending.Some?
    ensures LegalIntent(c, StateOf(h[k]), h[k].pending.value)
  {
    assert k > 0;
    assert ExportStepAt(c, h, k - 1);
  }

  /** Every state the journal ever holds is one that reopening accepts. */
  lemma {:induction false} EveryStateValid(c: Codec, h: seq<ExportRecord>, k: nat)
    requires ExportHistory(c, h) && k < |h|
    ensures ValidState(c, StateOf(h[k]))
  {
    if k > 0 {
      EveryStateValid(c, h, k - 1);
      assert ExportStepAt(c, h, k - 1);
      var s, next := StateOf(h[k - 1]), StateOf(h[k]);
      if CommitStep(h[k - 1], h[k]) {
        if Shrinks(s, next) {
          ShrinksValid(c, s, next);
        } else {
          PendingIsLegal(c, h, k - 1);
        }
      }
    }
  }

  lemma ShrinksValid(c: Codec, s: ExportState, next: ExportState)
    requires ValidState(c, s) && Shrinks(s, next)
    ensures ValidState(c, next)
  {
    SubsequenceKeeps(c, next.receipts, s.receipts);
    forall i | 0 <= i < |next.receipts| ensures ValidReceipt(c, next.incarnation, next.receipts[i]) {
      assert next.receipts[i] in s.receipts;
    }
  }

  /** The first journalled operation is a checkpoint, and until it is acknowledged nothing else is. */
  lemma FirstOperationIsCheckpoint(c: Codec, h: seq<ExportRecord>, k: nat)
    requires ExportHistory(c, h) && k < |h| && h[k].state.None?
    ensures h[k].pending.None? || h[k].pending.value.operation == CHECKPOINT
    ensures h[k].pending.Some? <==> k == 1
  {
    HistoryShape(h, k);
    if k == 1 { assert ExportStepAt(c, h, 0); }
  }

  /** Step `i` of the history is the acknowledged Add that produced receipt `r`. */
  ghost predicate CommittedBy(c: Codec, h: seq<ExportRecord>, i: nat, r: Receipt)
    requires i + 1 < |h|
  {
    && CommitStep(h[i], h[i + 1]) && AddAcknowledges(c, h[i], StateOf(h[i + 1]), r)
    && h[i].pending.value.payload.incarnation == r.incarnation
  }

  /** Each receipt comes from an Add whose commit reached the disk, in the receipt's own
      incarnation, and has been held in every record since. */
  lemma {:induction false} ReceiptProvenance(c: Codec, h: seq<ExportRecord>, k: nat, r: Receipt) returns (i: nat)
    requires ExportHistory(c, h) && k < |h| && r in StateOf(h[k]).receipts
    ensures i < k && CommittedBy(c, h, i, r)
    ensures forall m | i < m <= k ::
      r in StateOf(h[m]).receipts && StateOf(h[m]).incarnation == r.incarnation
  {
    EveryStateValid(c, h, k);
    assert k > 0;
    assert ExportStepAt(c, h, k - 1);
    var s, next := StateOf(h[k - 1]), StateOf(h[k]);
    if r in s.receipts {
      i := ReceiptProvenance(c, h, k - 1, r);
    } else {
      if Shrinks(s, next) {
        SubsequenceKeeps(c, next.receipts, s.receipts);
      } else {
        PendingIsLegal(c, h, k - 1);
        i := k - 1;
      }
    }
  }

  // ---------------------------------------------------------------- what the history rests on

  /** The reading lacks the receipt's path, in the given incarnation: the receipt's own or a later one. */
  ghost predicate Misses(x: RibReading, incarnation: string, r: Receipt)
  {
    x.world.incarnation == incarnation && r.incarnation in x.world.used && !Carries(x.world.paths, r.nlri)
  }

  /** A receipt that is dropped was missed by a reading taken while one of these records was the last. */
  ghost predicate DropSeen(readings: set<RibReading>, s: ExportState, next: ExportState, first: int, last: int, r: Receipt)
  {
    r in s.receipts && r !in next.receipts ==>
      exists x :: x in readings && first <= x.mark <= last && Misses(x, next.incarnation, r)
  }

  ghost predicate DropsSeen(readings: set<RibReading>, s: ExportState, next: ExportState, first: int, last: int)
  {
    forall r :: DropSeen(readings, s, next, first, last, r)
  }

  /** A receipt that is gained was confirmed by a reading taken after its intent was durable. */
  ghost predicate GainSeen(c: Codec, readings: set<RibReading>, s: ExportState, next: ExportState, i: int, r: Receipt)
  {
    r !in s.receipts && r in next.receipts ==>
      exists x :: x in readings && x.mark == i && Confirms(c, Observation(x.world.incarnation, x.world.paths), r)
  }

  /** A reading of the state's incarnation, while record `i` was the last, lacks the route. */
  ghost predicate VacancySeen(readings: set<RibReading>, incarnation: string, i: int, nlri: string)
  {
    exists x :: x in readings && x.mark == i && x.world.incarnation == incarnation && !Carries(x.world.paths, nlri)
  }

  ghost predicate IsAdd(intent: Option<Intent<Payload>>)
  {
    intent.Some? && intent.value.operation == ADD && intent.value.payload.RouteIntent?
  }

  /** What step `i` of a history rests on. An Add begins only where its route was read as absent and,
      unless it is acknowledged, ends only where it was read as absent again. */
  ghost predicate Rests(c: Codec, readings: set<RibReading>, a: ExportRecord, b: ExportRecord, i: int)
  {
    && DropsSeen(readings, StateOf(a), StateOf(b), i - 1, i)
    && (forall r :: GainSeen(c, readings, StateOf(a), StateOf(b), i, r))
    && (a.pending.None? && IsAdd(b.pending) ==>
          VacancySeen(readings, StateOf(a).incarnation, i, b.pending.value.payload.route.nlri))
    && (IsAdd(a.pending) && b.pending.None? && Subsequence(StateOf(b).receipts, StateOf(a).receipts) ==>
          VacancySeen(readings, StateOf(b).incarnation, i, a.pending.value.payload.route.nlri))
  }

  ghost predicate RestsAt(c: Codec, readings: set<RibReading>, h: seq<ExportRecord>, i: int)
  {
    0 <= i < |h| - 1 ==> Rests(c, readings, h[i], h[i + 1], i)
  }

  ghost predicate AllRest(c: Codec, readings: set<RibReading>, h: seq<ExportRecord>)
  {
    forall i :: RestsAt(c, readings, h, i)
  }

  lemma RestExtends(c: Codec, readings: set<RibReading>, h: seq<ExportRecord>, next: ExportRecord)
    requires AllRest(c, readings, h) && h != [] && Rests(c, readings, h[|h| - 1], next, |h| - 1)
    ensures AllRest(c, readings, h + [next])
  {
    var more := h + [next];
    forall i ensures RestsAt(c, readings, more, i) { assert RestsAt(c, readings, h, i); }
  }

  lemma RestsGrows(c: Codec, readings: set<RibReading>, more: set<RibReading>, a: ExportRecord, b: ExportRecord, i: int)
    requires Rests(c, readings, a, b, i) && readings <= more
    ensures Rests(c, more, a, b, i)
  {
    var first := i - 1;
    forall r ensures DropSeen(more, StateOf(a), StateOf(b), first, i, r) {
      assert DropSeen(readings, StateOf(a), StateOf(b), first, i, r);
    }
    forall r ensures GainSeen(c, more, StateOf(a), StateOf(b), i, r) {
      assert GainSeen(c, readings, StateOf(a), StateOf(b), i, r);
    }
  }

  lemma RestGrows(c: Codec, readings: set<RibReading>, more: set<RibReading>, h: seq<ExportRecord>)
    requires AllRest(c, readings, h) && readings <= more
    ensures AllRest(c, more, h)
  {
    forall i ensures RestsAt(c, more, h, i) {
      assert RestsAt(c, readings, h, i);
      if 0 <= i < |h| - 1 { RestsGrows(c, readings, more, h[i], h[i + 1], i); }
    }
  }

  /** A reading taken while the receipt was still held on disk missed its path. */
  ghost predicate MissedWhileHeld(h: seq<ExportRecord>, x: RibReading, incarnation: string, r: Receipt)
  {
    x.mark < |h| && r in StateOf(h[x.mark]).receipts && Misses(x, incarnation, r)
  }

  /** If the receipt was held in record `k` and is not in a later record `m`, one step in between dropped
      it, resting on a reading that missed its path in its incarnation or a later one. */
  ghost predicate DropFounded(readings: set<RibReading>, h: seq<ExportRecord>, k: int, m: int, r: Receipt)
  {
    0 <= k < m < |h| && r in StateOf(h[k]).receipts && r !in StateOf(h[m]).receipts ==>
      exists i, x | k <= i < m && x in readings ::
        && r in StateOf(h[i]).receipts && r !in StateOf(h[i + 1]).receipts
        && MissedWhileHeld(h, x, StateOf(h[i + 1]).incarnation, r)
  }

  /** The dual of `ReceiptProvenance`. */
  lemma {:induction false} DropProvenance(c: Codec, readings: set<RibReading>, h: seq<ExportRecord>, k: nat, m: nat, r: Receipt)
    requires ExportHistory(c, h) && AllRest(c, readings, h)
    ensures DropFounded(readings, h, k, m, r)
    decreases m
  {
    if k < m < |h| && r in StateOf(h[k]).receipts && r !in StateOf(h[m]).receipts {
      if r in StateOf(h[m - 1]).receipts {
        var x := DropReading(c, readings, h, m - 1, r);
      } else {
        DropProvenance(c, readings, h, k, m - 1, r);
      }
    }
  }

  lemma DropReading(c: Codec, readings: set<RibReading>, h: seq<ExportRecord>, i: nat, r: Receipt) returns (x: RibReading)
    requires ExportHistory(c, h) && AllRest(c, readings, h) && i + 1 < |h|
    requires r in StateOf(h[i]).receipts && r !in StateOf(h[i + 1]).receipts
    ensures x in readings && MissedWhileHeld(h, x, StateOf(h[i + 1]).incarnation, r)
  {
    assert RestsAt(c, readings, h, i) && DropSeen(readings, StateOf(h[i]), StateOf(h[i + 1]), i - 1, i, r);
    x :| x in readings && i - 1 <= x.mark <= i && Misses(x, StateOf(h[i + 1]).incarnation, r);
    if x.mark == i - 1 { assert ExportStepAt(c, h, i) && ExportStepAt(c, h, i - 1); }
  }

  /** If the record holds the receipt, a reading taken after its intent was durable confirmed it. */
  ghost predicate GainFounded(c: Codec, readings: set<RibReading>, h: seq<ExportRecord>, k: int, r: Receipt)
  {
    0 <= k < |h| && r in StateOf(h[k]).receipts ==>
      exists x :: x in readings && x.mark < k && IsAdd(h[x.mark].pending)
                  && Confirms(c, Observation(x.world.incarnation, x.world.paths), r)
  }

  lemma GainProvenance(c: Codec, readings: set<RibReading>, h: seq<ExportRecord>, k: nat, r: Receipt)
    requires ExportHistory(c, h) && AllRest(c, readings, h)
    ensures GainFounded(c, readings, h, k, r)
  {
    if k < |h| && r in StateOf(h[k]).receipts {
      var i := ReceiptProvenance(c, h, k, r);
      assert RestsAt(c, readings, h, i) && GainSeen(c, readings, StateOf(h[i]), StateOf(h[i + 1]), i, r);
    }
  }

  // ---------------------------------------------------------------- receipts and the speaker

  ghost predicate Deleting(pending: Option<Intent<Payload>>, r: Receipt)
  {
    pending.Some? && pending.value.operation == DELETE && pending.value.payload.RouteIntent?
    && pending.value.payload.route == r
  }

  /** Its path is there, and it is not the receipt whose deletion was interrupted. */
  ghost predicate Survives(pending: Option<Intent<Payload>>, paths: seq<RibPath>, r: Receipt)
  {
    && Carries(paths, r.nlri)
    && !(pending.Some? && pending.value.operation == DELETE && pending.value.payload.RouteIntent?
         && r.owned.pathUUID == pending.value.payload.route.owned.pathUUID)
  }

  /** Recovery keeps exactly the surviving receipts, in their order, under the observed incarnation,
      and resolves an interrupted Add only by the absence of its path. */
  ghost predicate Recovered(c: Codec, pending: Option<Intent<Payload>>, at: World, before: ExportState, after: ExportState)
  {
    && (forall r | r in after.receipts :: Confirms(c, Observation(at.incarnation, at.paths), r))
    && after.incarnation == at.incarnation && Subsequence(after.receipts, before.receipts)
    && (forall r | r in before.receipts :: r in after.receipts <==> Survives(pending, at.paths, r))
    && (pending.Some? && pending.value.operation == ADD && pending.value.payload.RouteIntent? ==>
          !Carries(at.paths, pending.value.payload.route.nlri))
  }

  /** Each receipt holds a UUID that AddPath returned for exactly its wire route, and while the
      incarnation lasts its path is in the RIB unless its deletion is already intended. */
  ghost predicate Fits(c: Codec, s: ExportState, pending: Option<Intent<Payload>>, w: World, orphans: set<string>)
  {
    && (s.incarnation != "" ==> s.incarnation in w.used)
    && (forall r | r in s.receipts ::
          && UUID(c, r).Some? && UUID(c, r).value in w.handles && w.handles[UUID(c, r).value] == r.nlri
          && UUID(c, r).value !in orphans)
    && (s.incarnation == w.incarnation ==>
          forall r | r in s.receipts :: Carries(w.paths, r.nlri) || Deleting(pending, r))
  }

  lemma FitsStable(c: Codec, s: ExportState, pending: Option<Intent<Payload>>, v: World, w: World, orphans: set<string>)
    requires Fits(c, s, pending, v, orphans) && Evolves(v, w, {})
    ensures Fits(c, s, pending, w, orphans)
  {
  }

  lemma FitsDuringDelete(c: Codec, s: ExportState, pending: Option<Intent<Payload>>, v: World, w: World,
                         orphans: set<string>, r: Receipt)
    requires ValidState(c, s) && Fits(c, s, pending, v, orphans) && Deleting(pending, r) && r in s.receipts
    requires Evolves(v, w, {r.nlri})
    ensures Fits(c, s, pending, w, orphans)
  {
    forall x | x in s.receipts && x != r ensures x.nlri != r.nlri {
      var i :| 0 <= i < |s.receipts| && s.receipts[i] == x;
      var j :| 0 <= j < |s.receipts| && s.receipts[j] == r;
    }
  }
}

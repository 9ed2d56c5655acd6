/** Planning and acknowledging deltas against confirmed applied routes. */
module RouteReconciliation {
  import opened Basics
  import opened Endpoints

  datatype Action = Advertise | Withdraw

  /** What one planned operation says, apart from its identity. */
  datatype Delta = Delta(action: Action, endpoint: LocalEndpoint, wireKey: string, pathUUID: string)

  type Applied = map<string, Owned>
  type Desired = map<string, LocalEndpoint>

  predicate Agrees(c: Codec, applied: Applied, desired: Desired, key: string)
  {
    key in applied && key in desired && Equivalent(c, applied[key].endpoint, desired[key])
  }

  ghost predicate InAgreement(c: Codec, applied: Applied, desired: Desired)
  {
    applied.Keys == desired.Keys && forall key | key in desired :: SameExport(c, applied[key].endpoint, desired[key])
  }

  function Obsolete(c: Codec, applied: Applied, desired: Desired): set<string>
  {
    set key | key in applied && !Agrees(c, applied, desired, key)
  }

  function Missing(c: Codec, applied: Applied, desired: Desired): set<string>
  {
    set key | key in desired && !Agrees(c, applied, desired, key)
  }

  function WithdrawDelta(applied: Applied, key: string): Delta
    requires key in applied
  {
    Delta(Withdraw, applied[key].endpoint, key, applied[key].pathUUID)
  }

  function AdvertiseDelta(desired: Desired, key: string): Delta
    requires key in desired
  {
    Delta(Advertise, desired[key], key, "")
  }

  function WithdrawAll(applied: Applied, keys: seq<string>): (w: seq<Delta>)
    requires forall key | key in keys :: key in applied
    ensures |w| == |keys|
  {
    if keys == [] then [] else [WithdrawDelta(applied, keys[0])] + WithdrawAll(applied, keys[1..])
  }

  function AdvertiseAll(desired: Desired, keys: seq<string>): (a: seq<Delta>)
    requires forall key | key in keys :: key in desired
    ensures |a| == |keys|
  {
    if keys == [] then [] else [AdvertiseDelta(desired, keys[0])] + AdvertiseAll(desired, keys[1..])
  }

  function Listed(applied: Applied, desired: Desired, withdraw: seq<string>, advertise: seq<string>): seq<Delta>
    requires forall key | key in withdraw :: key in applied
    requires forall key | key in advertise :: key in desired
  {
    WithdrawAll(applied, withdraw) + AdvertiseAll(desired, advertise)
  }

  /** All withdrawals in key order, then all advertisements in key order. */
  function Plan(c: Codec, applied: Applied, desired: Desired): seq<Delta>
  {
    Listed(applied, desired, SortedKeys(Obsolete(c, applied, desired)), SortedKeys(Missing(c, applied, desired)))
  }

  function Without(applied: Applied, key: string): Applied
  {
    map k | k in applied && k != key :: applied[k]
  }

  /** The acknowledged effect of one delta; `id` is the UUID AddPath returned. */
  function Execute(applied: Applied, d: Delta, id: string): Applied
  {
    match d.action
    case Withdraw => Without(applied, d.wireKey)
    case Advertise => applied[d.wireKey := Owned(d.endpoint, id)]
  }

  function ExecuteAll(applied: Applied, plan: seq<Delta>, ids: seq<string>): Applied
    requires |ids| == |plan|
    decreases |plan|
  {
    if plan == [] then applied
    else ExecuteAll(Execute(applied, plan[0], ids[0]), plan[1..], ids[1..])
  }

  lemma SortedKeysTail(s: set<string>)
    requires s != {}
    ensures SortedKeys(s)[0] in s && SortedKeys(s)[1..] == SortedKeys(s - {SortedKeys(s)[0]})
    ensures forall x | x in SortedKeys(s)[1..] :: x in s && x != SortedKeys(s)[0]
  {
    SortedKeysSorted(s);
  }

  lemma WithdrawalShrinksPlan(c: Codec, applied: Applied, desired: Desired, key: string, id: string)
    requires key in Obsolete(c, applied, desired)
    ensures var after := Execute(applied, WithdrawDelta(applied, key), id);
            && Obsolete(c, after, desired) == Obsolete(c, applied, desired) - {key}
            && Missing(c, after, desired) == Missing(c, applied, desired)
  {
  }

  lemma AdvertisementShrinksPlan(c: Codec, applied: Applied, desired: Desired, key: string, id: string)
    requires Obsolete(c, applied, desired) == {} && key in Missing(c, applied, desired)
    ensures var after := Execute(applied, AdvertiseDelta(desired, key), id);
            && Obsolete(c, after, desired) == {}
            && Missing(c, after, desired) == Missing(c, applied, desired) - {key}
  {
    var after := Execute(applied, AdvertiseDelta(desired, key), id);
    forall k ensures k !in Obsolete(c, after, desired) { assert k !in Obsolete(c, applied, desired); }
  }

  lemma {:induction false} WithdrawAllFrame(applied: Applied, after: Applied, keys: seq<string>)
    requires forall key | key in keys :: key in applied && key in after && applied[key] == after[key]
    ensures WithdrawAll(applied, keys) == WithdrawAll(after, keys)
  {
    if keys != [] { WithdrawAllFrame(applied, after, keys[1..]); }
  }

  lemma ListedWithdrawalHead(applied: Applied, after: Applied, desired: Desired, w: seq<string>, a: seq<string>)
    requires |w| > 0 && forall key | key in w :: key in applied
    requires forall key | key in a :: key in desired
    requires forall key | key in w[1..] :: key in after && applied[key] == after[key]
    ensures var all := Listed(applied, desired, w, a);
            |all| > 0 && all[0] == WithdrawDelta(applied, w[0]) && all[1..] == Listed(after, desired, w[1..], a)
  {
    WithdrawAllFrame(applied, after, w[1..]);
  }

  lemma ListedAdvertisementHead(applied: Applied, after: Applied, desired: Desired, a: seq<string>)
    requires |a| > 0 && forall key | key in a :: key in desired
    ensures var all := Listed(applied, desired, [], a);
            |all| > 0 && all[0] == AdvertiseDelta(desired, a[0]) && all[1..] == Listed(after, desired, [], a[1..])
  {
  }

  lemma ExecuteHeadWithdrawal(c: Codec, applied: Applied, desired: Desired, id: string)
    requires Obsolete(c, applied, desired) != {}
    ensures var plan := Plan(c, applied, desired);
            plan != [] && Plan(c, Execute(applied, plan[0], id), desired) == plan[1..]
  {
    var obsolete, missing := Obsolete(c, applied, desired), Missing(c, applied, desired);
    var keys := SortedKeys(obsolete);
    SortedKeysTail(obsolete);
    var after := Execute(applied, WithdrawDelta(applied, keys[0]), id);
    WithdrawalShrinksPlan(c, applied, desired, keys[0], id);
    ListedWithdrawalHead(applied, after, desired, keys, SortedKeys(missing));
  }

  lemma ExecuteHeadAdvertisement(c: Codec, applied: Applied, desired: Desired, id: string)
    requires Obsolete(c, applied, desired) == {} && Missing(c, applied, desired) != {}
    ensures var plan := Plan(c, applied, desired);
            plan != [] && Plan(c, Execute(applied, plan[0], id), desired) == plan[1..]
  {
    var missing := Missing(c, applied, desired);
    var keys := SortedKeys(missing);
    SortedKeysTail(missing);
    var after := Execute(applied, AdvertiseDelta(desired, keys[0]), id);
    AdvertisementShrinksPlan(c, applied, desired, keys[0], id);
    ListedAdvertisementHead(applied, after, desired, keys);
  }

  /** Executing the head of a plan and planning again leaves exactly its tail. */
  lemma ExecuteHead(c: Codec, applied: Applied, desired: Desired, id: string)
    requires Plan(c, applied, desired) != []
    ensures var plan := Plan(c, applied, desired);
            Plan(c, Execute(applied, plan[0], id), desired) == plan[1..]
  {
    if Obsolete(c, applied, desired) != {} {
      ExecuteHeadWithdrawal(c, applied, desired, id);
    } else {
      ExecuteHeadAdvertisement(c, applied, desired, id);
    }
  }

  lemma ExecuteAllHead(applied: Applied, plan: seq<Delta>, ids: seq<string>)
    requires 0 < |ids| <= |plan|
    ensures ExecuteAll(applied, plan[..|ids|], ids)
         == ExecuteAll(Execute(applied, plan[0], ids[0]), plan[1..][..|ids[1..]|], ids[1..])
  {
    assert plan[..|ids|][1..] == plan[1..][..|ids[1..]|];
  }

  /** After any executed prefix, replanning yields exactly the remaining suffix. */
  lemma {:induction false} ReplanYieldsSuffix(c: Codec, applied: Applied, desired: Desired, ids: seq<string>)
    requires |ids| <= |Plan(c, applied, desired)|
    ensures var plan := Plan(c, applied, desired);
            Plan(c, ExecuteAll(applied, plan[..|ids|], ids), desired) == plan[|ids|..]
    decreases |ids|
  {
    var plan := Plan(c, applied, desired);
    if ids != [] {
      ExecuteHead(c, applied, desired, ids[0]);
      ReplanYieldsSuffix(c, Execute(applied, plan[0], ids[0]), desired, ids[1..]);
      ExecuteAllHead(applied, plan, ids);
    } else {
      assert plan[|ids|..] == plan;
    }
  }

  lemma PlanEmptyIffAgreed(c: Codec, applied: Applied, desired: Desired)
    ensures Plan(c, applied, desired) == [] <==> InAgreement(c, applied, desired)
  {
    var obsolete, missing := Obsolete(c, applied, desired), Missing(c, applied, desired);
    assert Plan(c, applied, desired) == [] <==> obsolete == {} && missing == {};
    forall key | key in applied && key in desired
      ensures Agrees(c, applied, desired, key) <==> SameExport(c, applied[key].endpoint, desired[key])
    {
      EquivalentIffSameExport(c, applied[key].endpoint, desired[key]);
    }
    if obsolete == {} && missing == {} {
      forall key | key in desired ensures Agrees(c, applied, desired, key) { assert key !in missing; }
      forall key | key in applied ensures key in desired { assert key !in obsolete; }
    }
  }

  /** Executing a whole plan in order makes applied agree with desired. */
  lemma PlanConverges(c: Codec, applied: Applied, desired: Desired, ids: seq<string>)
    requires |ids| == |Plan(c, applied, desired)|
    ensures InAgreement(c, ExecuteAll(applied, Plan(c, applied, desired), ids), desired)
  {
    var plan := Plan(c, applied, desired);
    ReplanYieldsSuffix(c, applied, desired, ids);
    assert plan[..|ids|] == plan && plan[|ids|..] == [];
    PlanEmptyIffAgreed(c, ExecuteAll(applied, plan, ids), desired);
  }

  // ---------------------------------------------------------------- ownership log

  /** Acknowledged events. A resynchronization replaces the whole view. */
  datatype Event = Added(key: string, uuid: string) | Deleted(key: string, uuid: string)
                 | Resynced(claims: map<string, string>, foreign: set<string>)

  ghost function Effect(live: map<string, string>, e: Event): map<string, string>
  {
    if e.Added? then live[e.key := e.uuid] else if e.Deleted? then live - {e.key} else e.claims
  }

  ghost function Live(log: seq<Event>): map<string, string>
  {
    if log == [] then map[] else Effect(Live(log[..|log| - 1]), log[|log| - 1])
  }

  ghost function ForeignKeys(log: seq<Event>): set<string>
  {
    if log == [] then {} else
      var e := log[|log| - 1];
      if e.Resynced? then e.foreign else ForeignKeys(log[..|log| - 1])
  }

  /** An Add needs an unapplied, non-foreign key; a Delete needs the live UUID of its key. */
  ghost predicate LegalNext(log: seq<Event>, e: Event)
  {
    match e
    case Added(key, _) => key !in Live(log) && key !in ForeignKeys(log)
    case Deleted(key, uuid) => key in Live(log) && Live(log)[key] == uuid
    case Resynced(claims, foreign) => claims.Keys !! foreign
  }

  ghost predicate LegalLogAt(log: seq<Event>, i: int)
  {
    0 <= i < |log| ==> LegalNext(log[..i], log[i])
  }

  ghost predicate LegalLog(log: seq<Event>)
  {
    forall i :: LegalLogAt(log, i)
  }

  ghost predicate Grants(e: Event, key: string, uuid: string)
  {
    e == Added(key, uuid) || (e.Resynced? && key in e.claims && e.claims[key] == uuid)
  }

  ghost predicate Disturbs(e: Event, key: string)
  {
    e.Resynced? || (e.Added? && e.key == key) || (e.Deleted? && e.key == key)
  }

  /** `origin` granted `uuid` for `key`, and nothing touched the key since. */
  ghost predicate OriginOf(log: seq<Event>, n: nat, origin: nat, key: string, uuid: string)
    requires n <= |log|
  {
    origin < n && Grants(log[origin], key, uuid) && forall m | origin < m < n :: !Disturbs(log[m], key)
  }

  lemma {:induction false} LiveHasOrigin(log: seq<Event>, n: nat, key: string) returns (origin: nat)
    requires n <= |log| && key in Live(log[..n])
    ensures OriginOf(log, n, origin, key, Live(log[..n])[key])
  {
    assert log[..n][..n - 1] == log[..n - 1];
    if Grants(log[n - 1], key, Live(log[..n])[key]) {
      origin := n - 1;
    } else {
      origin := LiveHasOrigin(log, n - 1, key);
    }
  }

  /** Every Delete carries a UUID that an earlier Add returned for that wire key, or that a
      resynchronization receipt claimed for it, with neither a Delete of the key, another Add
      of it, nor a newer resynchronization in between. */
  lemma DeleteUsesUndeletedUUID(log: seq<Event>, i: nat)
    requires LegalLog(log) && i < |log| && log[i].Deleted?
    ensures exists origin: nat :: OriginOf(log, i, origin, log[i].key, log[i].uuid)
  {
    assert LegalLogAt(log, i);
    var origin := LiveHasOrigin(log, i, log[i].key);
  }

  lemma LogExtends(log: seq<Event>, e: Event)
    requires LegalLog(log) && LegalNext(log, e)
    ensures LegalLog(log + [e])
    ensures Live(log + [e]) == Effect(Live(log), e)
    ensures ForeignKeys(log + [e]) == if e.Resynced? then e.foreign else ForeignKeys(log)
  {
    var l := log + [e];
    assert l[..|log|] == log;
    forall i ensures LegalLogAt(l, i) {
      assert LegalLogAt(log, i);
      if 0 <= i < |log| { assert l[..i] == log[..i]; }
    }
  }

  ghost function UUIDs(applied: Applied): map<string, string>
  {
    map key | key in applied :: applied[key].pathUUID
  }

  /** The log and the view agree on one key: its live UUID, and whether it is foreign. */
  ghost predicate RecordsAt(log: seq<Event>, applied: Applied, foreign: set<string>, key: string)
  {
    && (key in Live(log) <==> key in applied) && (key in applied ==> Live(log)[key] == applied[key].pathUUID)
    && (key in ForeignKeys(log) <==> key in foreign)
  }

  ghost predicate Records(log: seq<Event>, applied: Applied, foreign: set<string>)
  {
    LegalLog(log) && forall key :: RecordsAt(log, applied, foreign, key)
  }

  lemma RecordsAdd(log: seq<Event>, applied: Applied, foreign: set<string>, key: string, owned: Owned)
    requires Records(log, applied, foreign) && key !in applied && key !in foreign
    ensures Records(log + [Added(key, owned.pathUUID)], applied[key := owned], foreign)
  {
    var more, after := log + [Added(key, owned.pathUUID)], applied[key := owned];
    assert RecordsAt(log, applied, foreign, key);
    LogExtends(log, Added(key, owned.pathUUID));
    forall k ensures RecordsAt(more, after, foreign, k) { assert RecordsAt(log, applied, foreign, k); }
  }

  lemma RecordsDelete(log: seq<Event>, applied: Applied, foreign: set<string>, key: string)
    requires Records(log, applied, foreign) && key in applied
    ensures Records(log + [Deleted(key, applied[key].pathUUID)], Without(applied, key), foreign)
  {
    var more, after := log + [Deleted(key, applied[key].pathUUID)], Without(applied, key);
    assert RecordsAt(log, applied, foreign, key);
    LogExtends(log, Deleted(key, applied[key].pathUUID));
    forall k ensures RecordsAt(more, after, foreign, k) { assert RecordsAt(log, applied, foreign, k); }
  }

  lemma RecordsResync(log: seq<Event>, applied: Applied, foreign: set<string>, claims: Applied, others: set<string>)
    requires Records(log, applied, foreign) && claims.Keys !! others
    ensures Records(log + [Resynced(UUIDs(claims), others)], claims, others)
  {
    var more := log + [Resynced(UUIDs(claims), others)];
    LogExtends(log, Resynced(UUIDs(claims), others));
    forall k ensures RecordsAt(more, claims, others, k) { }
  }

  // ---------------------------------------------------------------- desired endpoints

  predicate Advertised(c: Codec, ep: LocalEndpoint, key: string)
  {
    ep.advertise && c.build(ep).Some? && c.build(ep).value.nlri.text == key
  }

  /** Later equivalent endpoints replace earlier ones under the same key. */
  function Collect(c: Codec, desired: seq<LocalEndpoint>): Desired
  {
    if desired == [] then map[] else
      var last := desired[|desired| - 1];
      var m := Collect(c, desired[..|desired| - 1]);
      if last.advertise && c.build(last).Some? then m[c.build(last).value.nlri.text := last] else m
  }

  /** Every advertised endpoint builds, none is on a foreign key, equal keys mean equivalence. */
  ghost predicate Coherent(c: Codec, foreign: set<string>, desired: seq<LocalEndpoint>)
  {
    && (forall ep | ep in desired && ep.advertise ::
          c.build(ep).Some? && c.build(ep).value.nlri.text !in foreign)
    && (forall a, b, key | a in desired && b in desired && Advertised(c, a, key) && Advertised(c, b, key) ::
          Equivalent(c, a, b))
  }

  lemma {:induction false} CollectContents(c: Codec, desired: seq<LocalEndpoint>)
    ensures forall key | key in Collect(c, desired) ::
      Collect(c, desired)[key] in desired && Advertised(c, Collect(c, desired)[key], key)
    ensures forall ep, key | ep in desired && Advertised(c, ep, key) :: key in Collect(c, desired)
  {
    if desired != [] {
      var init := desired[..|desired| - 1];
      CollectContents(c, init);
      assert desired == init + [desired[|desired| - 1]];
    }
  }

  predicate Admissible(c: Codec, foreign: set<string>, collected: Desired, ep: LocalEndpoint)
  {
    ep.advertise ==>
      var route := c.build(ep);
      && route.Some? && route.value.nlri.text !in foreign
      && (route.value.nlri.text in collected ==> Equivalent(c, collected[route.value.nlri.text], ep))
  }

  lemma CoherentExtends(c: Codec, foreign: set<string>, init: seq<LocalEndpoint>, ep: LocalEndpoint)
    requires Coherent(c, foreign, init)
    ensures Coherent(c, foreign, init + [ep]) <==> Admissible(c, foreign, Collect(c, init), ep)
  {
    CollectContents(c, init);
    var all := init + [ep];
    assert ep in all;
    if Admissible(c, foreign, Collect(c, init), ep) {
      forall a, b, key | a in all && b in all && Advertised(c, a, key) && Advertised(c, b, key)
        ensures Equivalent(c, a, b)
      {
        assert a in init || a == ep;
        assert b in init || b == ep;
      }
    } else if c.build(ep).Some? && c.build(ep).value.nlri.text !in foreign {
      var key := c.build(ep).value.nlri.text;
      assert Advertised(c, ep, key) && Collect(c, init)[key] in all;
    }
  }

  lemma CoherentPrefix(c: Codec, foreign: set<string>, desired: seq<LocalEndpoint>, n: nat)
    requires Coherent(c, foreign, desired) && n <= |desired|
    ensures Coherent(c, foreign, desired[..n])
  {
  }

  method BuildDesired(c: Codec, foreign: set<string>, desired: seq<LocalEndpoint>) returns (r: Option<Desired>)
    ensures r.Some? <==> Coherent(c, foreign, desired)
    ensures r.Some? ==> r.value == Collect(c, desired)
  {
    var m: Desired := map[];
    for i := 0 to |desired|
      invariant m == Collect(c, desired[..i]) && Coherent(c, foreign, desired[..i])
    {
      var ep := desired[i];
      assert desired[..i + 1] == desired[..i] + [ep] && desired[..i + 1][..i] == desired[..i];
      CoherentExtends(c, foreign, desired[..i], ep);
      if !Admissible(c, foreign, m, ep) {
        if Coherent(c, foreign, desired) { CoherentPrefix(c, foreign, desired, i + 1); }
        return None;
      }
      if ep.advertise { m := m[c.build(ep).value.nlri.text := ep]; }
    }
    assert desired[..|desired|] == desired;
    return Some(m);
  }

  // ---------------------------------------------------------------- what a plan says

  /** The endpoint is to be advertised and its NLRI prints as the key. */
  ghost predicate Wants(c: Codec, desired: seq<LocalEndpoint>, key: string, ep: LocalEndpoint)
  {
    ep in desired && ep.advertise && exists route :: c.build(ep) == Some(route) && route.nlri.text == key
  }

  /** The applied route of the key is exported as some desired endpoint is. */
  ghost predicate Standing(c: Codec, applied: Applied, desired: seq<LocalEndpoint>, key: string)
  {
    key in applied && exists ep :: Wants(c, desired, key, ep) && SameExport(c, applied[key].endpoint, ep)
  }

  /** A withdrawal names an applied route, endpoint and UUID; an advertisement a desired endpoint, without UUID. */
  ghost predicate DeltaOk(c: Codec, applied: Applied, desired: seq<LocalEndpoint>, d: Delta)
  {
    match d.action
    case Withdraw =>
      d.wireKey in applied && d.endpoint == applied[d.wireKey].endpoint && d.pathUUID == applied[d.wireKey].pathUUID
    case Advertise => Wants(c, desired, d.wireKey, d.endpoint) && d.pathUUID == ""
  }

  ghost predicate Has(plan: seq<Delta>, action: Action, key: string)
  {
    exists i :: 0 <= i < |plan| && plan[i].action == action && plan[i].wireKey == key
  }

  /** Withdrawals before advertisements, each by key. */
  ghost predicate Precedes(d: Delta, e: Delta)
  {
    if d.action == e.action then Leq(d.wireKey, e.wireKey) && d.wireKey != e.wireKey else d.action == Withdraw
  }

  ghost predicate TouchesExactly(c: Codec, applied: Applied, desired: seq<LocalEndpoint>, plan: seq<Delta>, key: string)
  {
    && (Has(plan, Withdraw, key) <==> key in applied && !Standing(c, applied, desired, key))
    && (Has(plan, Advertise, key) <==> (exists ep :: Wants(c, desired, key, ep)) && !Standing(c, applied, desired, key))
  }

  /** What a plan must be: it withdraws exactly the applied routes that are not wanted as they are and
      advertises exactly the wanted keys that are not applied so, in order. */
  ghost predicate PlanOk(c: Codec, applied: Applied, desired: seq<LocalEndpoint>, plan: seq<Delta>)
  {
    && (forall i | 0 <= i < |plan| :: DeltaOk(c, applied, desired, plan[i]))
    && (forall i, j | 0 <= i < j < |plan| :: Precedes(plan[i], plan[j]))
    && (forall key :: TouchesExactly(c, applied, desired, plan, key))
  }

  lemma WantsIffCollected(c: Codec, foreign: set<string>, desired: seq<LocalEndpoint>, applied: Applied, key: string)
    requires Coherent(c, foreign, desired)
    ensures key in Collect(c, desired) <==> exists ep :: Wants(c, desired, key, ep)
    ensures key in Collect(c, desired) ==> Wants(c, desired, key, Collect(c, desired)[key])
    ensures Standing(c, applied, desired, key) <==> Agrees(c, applied, Collect(c, desired), key)
  {
    CollectContents(c, desired);
    var want := Collect(c, desired);
    if key in want {
      assert Advertised(c, want[key], key) && Wants(c, desired, key, want[key]);
      if key in applied { EquivalentIffSameExport(c, applied[key].endpoint, want[key]); }
    }
    forall ep | Wants(c, desired, key, ep) ensures key in want && Equivalent(c, want[key], ep) {
      assert Advertised(c, ep, key);
    }
    if Standing(c, applied, desired, key) {
      var ep :| Wants(c, desired, key, ep) && SameExport(c, applied[key].endpoint, ep);
      EquivalentIffSameExport(c, applied[key].endpoint, ep);
    }
  }

  /** The plan withdraws `w` and then advertises `a`. */
  ghost predicate Spells(applied: Applied, want: Desired, w: seq<string>, a: seq<string>, plan: seq<Delta>)
  {
    && |plan| == |w| + |a|
    && (forall i | 0 <= i < |w| ::
          w[i] in applied && plan[i] == Delta(Withdraw, applied[w[i]].endpoint, w[i], applied[w[i]].pathUUID))
    && (forall i | 0 <= i < |a| :: a[i] in want && plan[|w| + i] == Delta(Advertise, want[a[i]], a[i], ""))
  }

  lemma ListedSpells(applied: Applied, want: Desired, w: seq<string>, a: seq<string>)
    requires forall key | key in w :: key in applied
    requires forall key | key in a :: key in want
    ensures Spells(applied, want, w, a, Listed(applied, want, w, a))
  {
    var plan := Listed(applied, want, w, a);
    forall i | 0 <= i < |w|
      ensures w[i] in applied && plan[i] == Delta(Withdraw, applied[w[i]].endpoint, w[i], applied[w[i]].pathUUID)
    {
      assert w[i] in w;
      ListedAt(applied, want, w, a, i);
    }
    forall i | 0 <= i < |a| ensures a[i] in want && plan[|w| + i] == Delta(Advertise, want[a[i]], a[i], "") {
      assert a[i] in a;
      ListedAt(applied, want, w, a, |w| + i);
    }
  }

  /** The two listings of a plan: the keys to withdraw and the keys to advertise, each strictly sorted. */
  lemma PlanListings(c: Codec, applied: Applied, want: Desired) returns (w: seq<string>, a: seq<string>)
    ensures StrictlySorted(w) && StrictlySorted(a) && Spells(applied, want, w, a, Plan(c, applied, want))
    ensures forall key :: key in w <==> key in applied && !Agrees(c, applied, want, key)
    ensures forall key :: key in a <==> key in want && !Agrees(c, applied, want, key)
  {
    w, a := SortedKeys(Obsolete(c, applied, want)), SortedKeys(Missing(c, applied, want));
    SortedKeysSorted(Obsolete(c, applied, want));
    SortedKeysSorted(Missing(c, applied, want));
    ListedSpells(applied, want, w, a);
  }

  lemma SpelledDelta(applied: Applied, want: Desired, w: seq<string>, a: seq<string>, plan: seq<Delta>, i: nat)
    requires Spells(applied, want, w, a, plan) && i < |plan|
    ensures var d := plan[i];
      if i < |w| then d.wireKey == w[i] && w[i] in applied
                      && d == Delta(Withdraw, applied[d.wireKey].endpoint, d.wireKey, applied[d.wireKey].pathUUID)
      else d.wireKey == a[i - |w|] && d.wireKey in want && d == Delta(Advertise, want[d.wireKey], d.wireKey, "")
  {
    if i >= |w| { assert plan[|w| + (i - |w|)] == plan[i]; }
  }

  lemma SpelledOrder(applied: Applied, want: Desired, w: seq<string>, a: seq<string>, plan: seq<Delta>)
    requires Spells(applied, want, w, a, plan) && StrictlySorted(w) && StrictlySorted(a)
    ensures forall i, j | 0 <= i < j < |plan| :: Precedes(plan[i], plan[j])
  {
    forall i, j | 0 <= i < j < |plan| ensures Precedes(plan[i], plan[j]) {
      SpelledDelta(applied, want, w, a, plan, i);
      SpelledDelta(applied, want, w, a, plan, j);
    }
  }

  lemma SpelledKeys(applied: Applied, want: Desired, w: seq<string>, a: seq<string>, plan: seq<Delta>, key: string)
    requires Spells(applied, want, w, a, plan)
    ensures Has(plan, Withdraw, key) <==> key in w
    ensures Has(plan, Advertise, key) <==> key in a
  {
    forall i | 0 <= i < |plan|
      ensures plan[i].action == Withdraw ==> plan[i].wireKey in w
      ensures plan[i].action == Advertise ==> plan[i].wireKey in a
    {
      SpelledDelta(applied, want, w, a, plan, i);
    }
    if key in w {
      var i :| 0 <= i < |w| && w[i] == key;
      assert plan[i].action == Withdraw && plan[i].wireKey == key;
    }
    if key in a {
      var i :| 0 <= i < |a| && a[i] == key;
      assert plan[|w| + i].action == Advertise && plan[|w| + i].wireKey == key;
    }
  }

  /** The plan that is computed is what a plan must be. */
  lemma PlanIsOk(c: Codec, applied: Applied, foreign: set<string>, desired: seq<LocalEndpoint>)
    requires Coherent(c, foreign, desired)
    ensures PlanOk(c, applied, desired, Plan(c, applied, Collect(c, desired)))
  {
    var want := Collect(c, desired);
    var plan := Plan(c, applied, want);
    var w, a := PlanListings(c, applied, want);
    forall i | 0 <= i < |plan| ensures DeltaOk(c, applied, desired, plan[i]) {
      SpelledDelta(applied, want, w, a, plan, i);
      WantsIffCollected(c, foreign, desired, applied, plan[i].wireKey);
    }
    SpelledOrder(applied, want, w, a, plan);
    forall key ensures TouchesExactly(c, applied, desired, plan, key) {
      SpelledKeys(applied, want, w, a, plan, key);
      WantsIffCollected(c, foreign, desired, applied, key);
    }
  }

  /** What is applied is what is wanted: a key is applied exactly when an endpoint wants it, and then every
      endpoint that wants it is exported as the applied one is. */
  ghost predicate Exported(c: Codec, applied: Applied, desired: seq<LocalEndpoint>)
  {
    && (forall key :: key in applied <==> exists ep :: Wants(c, desired, key, ep))
    && (forall key, ep | key in applied && Wants(c, desired, key, ep) :: SameExport(c, applied[key].endpoint, ep))
  }

  lemma AgreementIsExport(c: Codec, applied: Applied, foreign: set<string>, desired: seq<LocalEndpoint>)
    requires Coherent(c, foreign, desired) && InAgreement(c, applied, Collect(c, desired))
    ensures Exported(c, applied, desired)
  {
    var want := Collect(c, desired);
    CollectContents(c, desired);
    forall key ensures key in applied <==> exists ep :: Wants(c, desired, key, ep) {
      WantsIffCollected(c, foreign, desired, applied, key);
    }
    forall key, ep | key in applied && Wants(c, desired, key, ep) ensures SameExport(c, applied[key].endpoint, ep) {
      assert Advertised(c, ep, key) && Advertised(c, want[key], key) && Equivalent(c, want[key], ep);
      EquivalentIffSameExport(c, applied[key].endpoint, want[key]);
      EquivalentIffSameExport(c, applied[key].endpoint, ep);
    }
  }

  // ---------------------------------------------------------------- resynchronization

  predicate LocalAt(path: RibPath, key: string)
  {
    path.local && path.nlri.Some? && path.nlri.value.text == key
  }

  /** A durable readback may omit the UUID; ordinary adoption must see it. */
  ghost predicate PathIsOwned(c: Codec, durable: bool, path: RibPath, owned: Owned)
  {
    && Shows(c, path, owned.endpoint)
    && (path.pathUUID == owned.pathUUID || (durable && path.pathUUID == ""))
  }

  /** The applied routes are the receipts, each on some local path of the snapshot. */
  ghost predicate ReceiptsSeen(paths: seq<RibPath>, receipts: seq<Owned>, applied: Applied)
  {
    && (forall key | key in applied :: applied[key] in receipts && exists i :: 0 <= i < |paths| && LocalAt(paths[i], key))
    && (forall r | r in receipts :: exists key :: key in applied && applied[key] == r)
  }

  ghost predicate PathsPlaced(paths: seq<RibPath>, applied: Applied, foreign: set<string>)
  {
    && (forall i | 0 <= i < |paths| :: paths[i].nlri.Some?)
    && (forall i | 0 <= i < |paths| && paths[i].local ::
          paths[i].nlri.value.text in applied || paths[i].nlri.value.text in foreign)
    && (forall key | key in foreign :: exists i :: 0 <= i < |paths| && LocalAt(paths[i], key))
  }

  ghost predicate PathsOwned(c: Codec, durable: bool, paths: seq<RibPath>, applied: Applied)
  {
    && (forall i, key | 0 <= i < |paths| && key in applied && LocalAt(paths[i], key) ::
          PathIsOwned(c, durable, paths[i], applied[key]))
    && (forall i, j, key | 0 <= i < |paths| && 0 <= j < |paths| && key in applied
                           && LocalAt(paths[i], key) && LocalAt(paths[j], key) :: i == j)
  }

  /** Each receipt owns exactly one local path of the snapshot, alone under its key; every
      other local path makes its key foreign. */
  ghost predicate Adoption(c: Codec, durable: bool, paths: seq<RibPath>, receipts: seq<Owned>,
                           applied: Applied, foreign: set<string>)
  {
    && applied.Keys !! foreign && ReceiptsSeen(paths, receipts, applied)
    && PathsPlaced(paths, applied, foreign) && PathsOwned(c, durable, paths, applied)
  }

  ghost predicate Claimable(c: Codec, receipts: seq<Owned>)
  {
    && (forall r | r in receipts :: r.pathUUID != "" && c.build(r.endpoint).Some?)
    && (forall i, j | 0 <= i < j < |receipts| :: receipts[i].pathUUID != receipts[j].pathUUID)
  }

  ghost predicate ClaimsByUUID(claims: map<string, Owned>, receipts: seq<Owned>)
  {
    && (forall r | r in receipts :: r.pathUUID in claims && claims[r.pathUUID] == r)
    && (forall id | id in claims :: claims[id] in receipts && claims[id].pathUUID == id)
  }

  method ClaimReceipts(c: Codec, receipts: seq<Owned>) returns (claims: Option<map<string, Owned>>)
    ensures claims.Some? <==> Claimable(c, receipts)
    ensures claims.Some? ==> ClaimsByUUID(claims.value, receipts)
  {
    var m: map<string, Owned> := map[];
    for i := 0 to |receipts|
      invariant Claimable(c, receipts[..i]) && ClaimsByUUID(m, receipts[..i])
    {
      var r := receipts[i];
      assert r in receipts && receipts[..i + 1] == receipts[..i] + [r];
      if r.pathUUID == "" || c.build(r.endpoint).None? { return None; }
      if r.pathUUID in m {
        var j :| 0 <= j < i && receipts[..i][j] == m[r.pathUUID];
        assert receipts[j].pathUUID == receipts[i].pathUUID;
        return None;
      }
      m := m[r.pathUUID := r];
    }
    assert receipts[..|receipts|] == receipts;
    return Some(m);
  }

  /** The first `n` paths have been classified; `at` locates the path behind each owned key. */
  ghost predicate Scanned(c: Codec, durable: bool, paths: seq<RibPath>, n: nat,
                          applied: Applied, foreign: set<string>, at: map<string, nat>)
    requires n <= |paths|
  {
    && applied.Keys == at.Keys
    && (forall key | key in at ::
          at[key] < n && LocalAt(paths[at[key]], key) && PathIsOwned(c, durable, paths[at[key]], applied[key]))
    && (forall j | 0 <= j < n :: paths[j].nlri.Some?)
    && (forall j, key | 0 <= j < n && LocalAt(paths[j], key) :: key in foreign || (key in at && at[key] == j))
    && (forall key :: ForeignAt(paths, n, foreign, key))
  }

  ghost predicate ForeignAt(paths: seq<RibPath>, n: nat, foreign: set<string>, key: string)
    requires n <= |paths|
  {
    key in foreign ==> exists j :: 0 <= j < n && LocalAt(paths[j], key)
  }

  lemma ScanForeign(c: Codec, durable: bool, paths: seq<RibPath>, n: nat, applied: Applied,
                    foreign: set<string>, at: map<string, nat>)
    requires n < |paths| && Scanned(c, durable, paths, n, applied, foreign, at) && paths[n].nlri.Some?
    ensures Scanned(c, durable, paths, n + 1, applied,
                    if paths[n].local then foreign + {paths[n].nlri.value.text} else foreign, at)
  {
    var now := if paths[n].local then foreign + {paths[n].nlri.value.text} else foreign;
    if paths[n].local { assert LocalAt(paths[n], paths[n].nlri.value.text); }
    var m := n + 1;
    forall key ensures ForeignAt(paths, m, now, key) { assert ForeignAt(paths, n, foreign, key); }
  }

  lemma ScanOwned(c: Codec, durable: bool, paths: seq<RibPath>, n: nat, applied: Applied,
                  foreign: set<string>, at: map<string, nat>, key: string, owned: Owned)
    requires n < |paths| && Scanned(c, durable, paths, n, applied, foreign, at)
    requires LocalAt(paths[n], key) && key !in applied && PathIsOwned(c, durable, paths[n], owned)
    ensures Scanned(c, durable, paths, n + 1, applied[key := owned], foreign, at[key := n])
  {
    var m := n + 1;
    forall k ensures ForeignAt(paths, m, foreign, k) { assert ForeignAt(paths, n, foreign, k); }
  }

  lemma ScannedAdoption(c: Codec, durable: bool, paths: seq<RibPath>, receipts: seq<Owned>, applied: Applied,
                        foreign: set<string>, at: map<string, nat>)
    requires Scanned(c, durable, paths, |paths|, applied, foreign, at) && applied.Keys !! foreign
    requires forall key | key in applied :: applied[key] in receipts
    requires forall r | r in receipts :: exists key :: key in applied && applied[key] == r
    ensures Adoption(c, durable, paths, receipts, applied, foreign)
  {
    forall key | key in applied ensures exists i :: 0 <= i < |paths| && LocalAt(paths[i], key) {
      assert LocalAt(paths[at[key]], key);
    }
    forall i | 0 <= i < |paths| && paths[i].local
      ensures paths[i].nlri.value.text in applied || paths[i].nlri.value.text in foreign
    {
      assert LocalAt(paths[i], paths[i].nlri.value.text);
    }
    forall key | key in foreign ensures exists i :: 0 <= i < |paths| && LocalAt(paths[i], key) {
      assert ForeignAt(paths, |paths|, foreign, key);
    }
  }

  /** Progress through a snapshot: owned routes, foreign keys, claims not yet seen. */
  datatype Scan = Conflict | Scan(applied: Applied, foreign: set<string>, claims: map<string, Owned>)

  function ScanStep(c: Codec, s: Scan, path: RibPath): Scan
  {
    if s.Conflict? || path.nlri.None? then Conflict
    else if !path.local then s
    else
      var key := path.nlri.value.text;
      if path.pathUUID !in s.claims then s.(foreign := s.foreign + {key})
      else if !RibPathMatches(c, path, s.claims[path.pathUUID].endpoint) || key in s.applied then Conflict
      else Scan(s.applied[key := s.claims[path.pathUUID]], s.foreign, s.claims - {path.pathUUID})
  }

  function ScanPaths(c: Codec, paths: seq<RibPath>, claims: map<string, Owned>): Scan
  {
    if paths == [] then Scan(map[], {}, claims)
    else ScanStep(c, ScanPaths(c, paths[..|paths| - 1], claims), paths[|paths| - 1])
  }

  lemma {:induction false} ScanPathsSound(c: Codec, paths: seq<RibPath>, n: nat, claims: map<string, Owned>)
    returns (at: map<string, nat>)
    requires n <= |paths| && ScanPaths(c, paths[..n], claims).Scan?
    requires forall id | id in claims :: claims[id].pathUUID == id
    ensures var s := ScanPaths(c, paths[..n], claims);
      && Scanned(c, false, paths, n, s.applied, s.foreign, at)
      && (forall key | key in s.applied :: s.applied[key].pathUUID in claims
                                           && claims[s.applied[key].pathUUID] == s.applied[key])
      && (forall id | id in s.claims :: id in claims && s.claims[id] == claims[id])
      && (forall id | id in claims :: id in s.claims || exists key :: key in s.applied && s.applied[key] == claims[id])
  {
    if n == 0 {
      at := map[];
    } else {
      assert paths[..n][..n - 1] == paths[..n - 1];
      at := ScanPathsSound(c, paths, n - 1, claims);
      var before, path := ScanPaths(c, paths[..n - 1], claims), paths[n - 1];
      if path.local && path.pathUUID in before.claims {
        var key, owned := path.nlri.value.text, before.claims[path.pathUUID];
        ScanOwned(c, false, paths, n - 1, before.applied, before.foreign, at, key, owned);
        at := at[key := n - 1];
        ScanClaims(before, key, path.pathUUID, claims);
      } else {
        ScanForeign(c, false, paths, n - 1, before.applied, before.foreign, at);
      }
    }
  }

  lemma ScanClaims(before: Scan, key: string, id: string, claims: map<string, Owned>)
    requires before.Scan? && id in before.claims && key !in before.applied
    requires forall i | i in before.claims :: i in claims && before.claims[i] == claims[i]
    requires forall i | i in claims ::
      i in before.claims || exists k :: k in before.applied && before.applied[k] == claims[i]
    ensures var applied := before.applied[key := before.claims[id]];
      forall i | i in claims :: i in before.claims - {id} || exists k :: k in applied && applied[k] == claims[i]
  {
    var applied := before.applied[key := before.claims[id]];
    forall i | i in claims && i !in before.claims - {id} ensures exists k :: k in applied && applied[k] == claims[i] {
      if i == id {
        assert applied[key] == claims[i];
      } else {
        var k :| k in before.applied && before.applied[k] == claims[i];
        assert applied[k] == claims[i];
      }
    }
  }

  lemma ScanPathsAdoption(c: Codec, paths: seq<RibPath>, receipts: seq<Owned>, claimed: map<string, Owned>)
    requires ClaimsByUUID(claimed, receipts)
    requires var s := ScanPaths(c, paths, claimed); s.Scan? && s.claims == map[] && s.applied.Keys !! s.foreign
    ensures var s := ScanPaths(c, paths, claimed); Adoption(c, false, paths, receipts, s.applied, s.foreign)
  {
    var s := ScanPaths(c, paths, claimed);
    assert paths[..|paths|] == paths;
    var at := ScanPathsSound(c, paths, |paths|, claimed);
    forall r | r in receipts ensures exists key :: key in s.applied && s.applied[key] == r {
      assert r.pathUUID in claimed;
    }
    ScannedAdoption(c, false, paths, receipts, s.applied, s.foreign, at);
  }

  // What an adoption is, the scan finds.

  ghost predicate Before(paths: seq<RibPath>, n: int, key: string)
  {
    exists i :: 0 <= i < n && i < |paths| && LocalAt(paths[i], key)
  }

  lemma BeforeNext(paths: seq<RibPath>, n: nat, key: string)
    requires n < |paths|
    ensures Before(paths, n + 1, key) <==> Before(paths, n, key) || LocalAt(paths[n], key)
  {
    if i :| 0 <= i < n + 1 && LocalAt(paths[i], key) { assert i < n ==> Before(paths, n, key); }
  }

  ghost predicate ReachedAt(paths: seq<RibPath>, n: nat, applied: Applied, foreign: set<string>, s: Scan, key: string)
    requires s.Scan?
  {
    && (key in s.applied <==> key in applied && Before(paths, n, key))
    && (key in s.applied && key in applied ==> s.applied[key] == applied[key])
    && (key in s.foreign <==> key in foreign && Before(paths, n, key))
  }

  ghost predicate Reached(paths: seq<RibPath>, n: nat, applied: Applied, foreign: set<string>, s: Scan)
  {
    s.Scan? && forall key :: ReachedAt(paths, n, applied, foreign, s, key)
  }

  ghost predicate Consumed(applied: Applied, id: string)
  {
    exists key :: key in applied && applied[key].pathUUID == id
  }

  ghost predicate OpenAt(claims: map<string, Owned>, s: Scan, id: string)
    requires s.Scan?
  {
    && (id in s.claims <==> id in claims && !Consumed(s.applied, id))
    && (id in s.claims && id in claims ==> s.claims[id] == claims[id])
  }

  /** No local path before `i` carries this UUID. */
  ghost predicate FirstCarrier(paths: seq<RibPath>, i: int, id: string)
  {
    forall j | 0 <= j < i && j < |paths| && paths[j].local :: paths[j].pathUUID != id
  }

  /** The path of every adopted receipt is the first local path that carries the receipt's UUID. */
  ghost predicate FirstCarriers(paths: seq<RibPath>, applied: Applied)
  {
    forall i, key | 0 <= i < |paths| && key in applied && LocalAt(paths[i], key) ::
      FirstCarrier(paths, i, applied[key].pathUUID)
  }

  /** Exactly when the receipts can be claimed in this snapshot. */
  ghost predicate Adoptable(c: Codec, paths: seq<RibPath>, receipts: seq<Owned>)
  {
    exists applied, foreign :: Adoption(c, false, paths, receipts, applied, foreign) && FirstCarriers(paths, applied)
  }

  /** The next local path of an adopted key carries a UUID that is still open. */
  lemma AdoptedStep(c: Codec, paths: seq<RibPath>, n: nat, receipts: seq<Owned>, claims: map<string, Owned>,
                    applied: Applied, foreign: set<string>, s: Scan, key: string)
    requires n < |paths| && ClaimsByUUID(claims, receipts) && FirstCarriers(paths, applied)
    requires Adoption(c, false, paths, receipts, applied, foreign) && Reached(paths, n, applied, foreign, s)
    requires forall id :: OpenAt(claims, s, id)
    requires LocalAt(paths[n], key) && key in applied
    ensures paths[n].pathUUID in s.claims && s.claims[paths[n].pathUUID] == applied[key] && key !in s.applied
    ensures RibPathMatches(c, paths[n], applied[key].endpoint)
  {
    var id := paths[n].pathUUID;
    assert PathIsOwned(c, false, paths[n], applied[key]) && FirstCarrier(paths, n, id);
    assert OpenAt(claims, s, id) && ReachedAt(paths, n, applied, foreign, s, key);
    forall i | 0 <= i < n ensures !LocalAt(paths[i], key) { }
    forall k | k in s.applied ensures s.applied[k].pathUUID != id {
      assert ReachedAt(paths, n, applied, foreign, s, k);
      var i :| 0 <= i < n && LocalAt(paths[i], k);
      assert PathIsOwned(c, false, paths[i], applied[k]);
    }
  }

  /** The next local path of a foreign key carries no UUID that is still open. */
  lemma ForeignStep(c: Codec, paths: seq<RibPath>, n: nat, receipts: seq<Owned>, claims: map<string, Owned>,
                    applied: Applied, foreign: set<string>, s: Scan, key: string)
    requires n < |paths| && ClaimsByUUID(claims, receipts) && FirstCarriers(paths, applied)
    requires Adoption(c, false, paths, receipts, applied, foreign) && Reached(paths, n, applied, foreign, s)
    requires forall id :: OpenAt(claims, s, id)
    requires LocalAt(paths[n], key) && key !in applied
    ensures paths[n].pathUUID !in s.claims
  {
    var id := paths[n].pathUUID;
    assert OpenAt(claims, s, id);
    forall r | r in receipts && r.pathUUID == id ensures Consumed(s.applied, id) {
      var k :| k in applied && applied[k] == r;
      var i :| 0 <= i < |paths| && LocalAt(paths[i], k);
      assert PathIsOwned(c, false, paths[i], applied[k]) && FirstCarrier(paths, i, id);
      assert i < n && Before(paths, n, k) && ReachedAt(paths, n, applied, foreign, s, k);
      assert s.applied[k].pathUUID == id;
    }
  }

  lemma {:induction false} ScanPathsFinds(c: Codec, paths: seq<RibPath>, n: nat, receipts: seq<Owned>,
                                          claims: map<string, Owned>, applied: Applied, foreign: set<string>)
    requires n <= |paths| && ClaimsByUUID(claims, receipts) && FirstCarriers(paths, applied)
    requires Adoption(c, false, paths, receipts, applied, foreign)
    ensures var s := ScanPaths(c, paths[..n], claims);
      Reached(paths, n, applied, foreign, s) && forall id :: OpenAt(claims, s, id)
  {
    if n > 0 {
      assert paths[..n][..n - 1] == paths[..n - 1];
      ScanPathsFinds(c, paths, n - 1, receipts, claims, applied, foreign);
      var before, now, path := ScanPaths(c, paths[..n - 1], claims), ScanPaths(c, paths[..n], claims), paths[n - 1];
      if path.local {
        var key := path.nlri.value.text;
        assert LocalAt(path, key);
        assert OpenAt(claims, before, path.pathUUID);
        if key in applied {
          AdoptedStep(c, paths, n - 1, receipts, claims, applied, foreign, before, key);
        } else {
          ForeignStep(c, paths, n - 1, receipts, claims, applied, foreign, before, key);
        }
      }
      FindsStep(paths, n - 1, claims, applied, foreign, before, now);
    }
  }

  /** One path later: what the scan did is what the adoption says. */
  lemma FindsStep(paths: seq<RibPath>, n: nat, claims: map<string, Owned>, applied: Applied, foreign: set<string>,
                  before: Scan, now: Scan)
    requires n < |paths| && Reached(paths, n, applied, foreign, before) && forall id :: OpenAt(claims, before, id)
    requires now.Scan? && applied.Keys !! foreign
    requires if !paths[n].local then now == before
             else paths[n].nlri.Some? &&
                  var key := paths[n].nlri.value.text;
                  if key in applied then
                    && key !in before.applied && applied[key].pathUUID in before.claims
                    && now == Scan(before.applied[key := applied[key]], before.foreign, before.claims - {applied[key].pathUUID})
                  else key in foreign && now == before.(foreign := before.foreign + {key})
    ensures Reached(paths, n + 1, applied, foreign, now) && forall id :: OpenAt(claims, now, id)
  {
    var m := n + 1;
    forall k ensures ReachedAt(paths, m, applied, foreign, now, k) {
      assert ReachedAt(paths, n, applied, foreign, before, k);
      BeforeNext(paths, n, k);
    }
    forall id ensures OpenAt(claims, now, id) {
      assert OpenAt(claims, before, id);
      if now.applied != before.applied {
        var key := paths[n].nlri.value.text;
        ConsumedStep(before.applied, key, applied[key], id);
      }
    }
  }

  lemma ConsumedStep(applied: Applied, key: string, owned: Owned, id: string)
    requires key !in applied
    ensures Consumed(applied[key := owned], id) <==> Consumed(applied, id) || id == owned.pathUUID
  {
    var now := applied[key := owned];
    if Consumed(applied, id) {
      var k :| k in applied && applied[k].pathUUID == id;
      assert now[k].pathUUID == id;
    }
    if id == owned.pathUUID { assert now[key].pathUUID == id; }
  }

  /** An adoption by first carriers is the only one and the one the scan computes. */
  lemma AdoptionFound(c: Codec, paths: seq<RibPath>, receipts: seq<Owned>, claims: map<string, Owned>, applied: Applied,
                      foreign: set<string>)
    requires ClaimsByUUID(claims, receipts) && FirstCarriers(paths, applied)
    requires Adoption(c, false, paths, receipts, applied, foreign)
    ensures ScanPaths(c, paths, claims) == Scan(applied, foreign, map[])
  {
    var s := ScanPaths(c, paths, claims);
    ScanPathsFinds(c, paths, |paths|, receipts, claims, applied, foreign);
    assert paths[..|paths|] == paths;
    AllReached(c, false, paths, receipts, applied, foreign, s);
    forall id ensures id !in s.claims {
      assert OpenAt(claims, s, id);
      if id in claims {
        var k :| k in applied && applied[k] == claims[id];
        assert s.applied[k].pathUUID == id;
      }
    }
  }

  ghost predicate SpentAt(paths: seq<RibPath>, n: nat, s: Scan, j: int)
    requires s.Scan?
  {
    0 <= j < n && j < |paths| && paths[j].local ==> paths[j].pathUUID !in s.claims
  }

  ghost predicate ClaimedAt(paths: seq<RibPath>, n: nat, s: Scan, key: string)
    requires s.Scan?
  {
    key in s.applied ==> exists i :: 0 <= i < n && i < |paths| && LocalAt(paths[i], key)
                                     && FirstCarrier(paths, i, s.applied[key].pathUUID)
  }

  /** The scan claims a receipt only on the first local path that carries its UUID. */
  lemma {:induction false} ScanClaimsFirst(c: Codec, paths: seq<RibPath>, n: nat, claims: map<string, Owned>)
    requires n <= |paths| && ScanPaths(c, paths[..n], claims).Scan?
    requires forall id | id in claims :: claims[id].pathUUID == id
    ensures var s := ScanPaths(c, paths[..n], claims);
      && (forall id | id in s.claims :: id in claims && s.claims[id] == claims[id])
      && (forall j :: SpentAt(paths, n, s, j)) && (forall key :: ClaimedAt(paths, n, s, key))
  {
    if n > 0 {
      var m := n - 1;
      assert paths[..n][..m] == paths[..m];
      ScanClaimsFirst(c, paths, m, claims);
      var before, now := ScanPaths(c, paths[..m], claims), ScanPaths(c, paths[..n], claims);
      forall j ensures SpentAt(paths, n, now, j) { assert SpentAt(paths, m, before, j); }
      forall j | 0 <= j < m && paths[j].local ensures paths[j].pathUUID !in before.claims { assert SpentAt(paths, m, before, j); }
      forall key ensures ClaimedAt(paths, n, now, key) {
        assert ClaimedAt(paths, m, before, key);
        if key in now.applied {
          if key in before.applied && now.applied[key] == before.applied[key] {
            var i :| 0 <= i < m && LocalAt(paths[i], key) && FirstCarrier(paths, i, before.applied[key].pathUUID);
          } else {
            assert LocalAt(paths[m], key) && FirstCarrier(paths, m, now.applied[key].pathUUID);
          }
        }
      }
    }
  }

  lemma ScanFirstCarriers(c: Codec, paths: seq<RibPath>, receipts: seq<Owned>, claims: map<string, Owned>)
    requires ClaimsByUUID(claims, receipts) && ScanPaths(c, paths, claims).Scan?
    requires var s := ScanPaths(c, paths, claims); Adoption(c, false, paths, receipts, s.applied, s.foreign)
    ensures FirstCarriers(paths, ScanPaths(c, paths, claims).applied)
  {
    var s := ScanPaths(c, paths, claims);
    assert paths[..|paths|] == paths;
    ScanClaimsFirst(c, paths, |paths|, claims);
    forall i, key | 0 <= i < |paths| && key in s.applied && LocalAt(paths[i], key)
      ensures FirstCarrier(paths, i, s.applied[key].pathUUID)
    {
      assert ClaimedAt(paths, |paths|, s, key);
      var k :| 0 <= k < |paths| && LocalAt(paths[k], key) && FirstCarrier(paths, k, s.applied[key].pathUUID);
    }
  }

  lemma NotAdoptable(c: Codec, paths: seq<RibPath>, receipts: seq<Owned>, claims: map<string, Owned>, s: Scan)
    requires ClaimsByUUID(claims, receipts) && s == ScanPaths(c, paths, claims)
    requires s.Conflict? || s.claims != map[] || !(s.applied.Keys !! s.foreign)
    ensures !Adoptable(c, paths, receipts)
  {
    forall applied, foreign | Adoption(c, false, paths, receipts, applied, foreign) && FirstCarriers(paths, applied)
      ensures s == Scan(applied, foreign, map[]) && applied.Keys !! foreign
    {
      AdoptionFound(c, paths, receipts, claims, applied, foreign);
    }
  }

  lemma AllReached(c: Codec, durable: bool, paths: seq<RibPath>, receipts: seq<Owned>, applied: Applied,
                   foreign: set<string>, s: Scan)
    requires Adoption(c, durable, paths, receipts, applied, foreign) && Reached(paths, |paths|, applied, foreign, s)
    ensures s.applied == applied && s.foreign == foreign
  {
    forall key
      ensures key in s.applied <==> key in applied
      ensures key in s.applied ==> s.applied[key] == applied[key]
      ensures key in s.foreign <==> key in foreign
    {
      assert ReachedAt(paths, |paths|, applied, foreign, s, key);
      if key in applied || key in foreign {
        var i :| 0 <= i < |paths| && LocalAt(paths[i], key);
        assert Before(paths, |paths|, key);
      }
    }
  }

  /** No two local paths carry the UUID of one receipt. */
  ghost predicate UnsharedUUIDs(paths: seq<RibPath>, receipts: seq<Owned>)
  {
    forall i, j, r | 0 <= i < |paths| && 0 <= j < |paths| && paths[i].local && paths[j].local && r in receipts
                     && paths[i].pathUUID == r.pathUUID && paths[j].pathUUID == r.pathUUID :: i == j
  }

  /** Without shared UUIDs every adoption is by first carriers. */
  lemma UnsharedSuffices(c: Codec, paths: seq<RibPath>, receipts: seq<Owned>, applied: Applied, foreign: set<string>)
    requires Adoption(c, false, paths, receipts, applied, foreign) && UnsharedUUIDs(paths, receipts)
    ensures Adoptable(c, paths, receipts)
  {
    forall i, key | 0 <= i < |paths| && key in applied && LocalAt(paths[i], key)
      ensures FirstCarrier(paths, i, applied[key].pathUUID)
    {
      assert PathIsOwned(c, false, paths[i], applied[key]);
    }
  }

  lemma PairAdoption(c: Codec, paths: seq<RibPath>, p: RibPath, q: RibPath, r: Owned)
    requires paths == [p, q] || paths == [q, p]
    requires p.local && q.local && q.nlri.Some? && p.pathUUID == r.pathUUID && Shows(c, p, r.endpoint)
    requires p.nlri.value.text != q.nlri.value.text
    ensures Adoption(c, false, paths, [r], map[p.nlri.value.text := r], {q.nlri.value.text})
  {
    var i := if paths == [p, q] then 0 else 1;
    assert LocalAt(paths[i], p.nlri.value.text) && LocalAt(paths[1 - i], q.nlri.value.text);
    assert map[p.nlri.value.text := r][p.nlri.value.text] == r;
  }

  /** With a shared UUID the order of the RIB decides. Let `p` match the receipt and `q` be another
      local path with the same UUID on another key. With `p` first the receipt is adopted; with `q`
      first the same adoption still describes the snapshot, but it is refused. */
  lemma SharedUUIDOrderMatters(c: Codec, p: RibPath, q: RibPath, r: Owned)
    requires p.local && q.local && q.nlri.Some? && p.pathUUID == q.pathUUID == r.pathUUID
    requires Shows(c, p, r.endpoint) && !Shows(c, q, r.endpoint)
    requires p.nlri.value.text != q.nlri.value.text
    ensures Adoptable(c, [p, q], [r]) && !Adoptable(c, [q, p], [r])
    ensures Adoption(c, false, [q, p], [r], map[p.nlri.value.text := r], {q.nlri.value.text})
  {
    PairAdoption(c, [p, q], p, q, r);
    PairAdoption(c, [q, p], p, q, r);
    var applied := map[p.nlri.value.text := r];
    assert FirstCarriers([p, q], applied);
    var paths := [q, p];
    forall a: Applied, f: set<string> | Adoption(c, false, paths, [r], a, f) ensures !FirstCarriers(paths, a) {
      assert r in [r];
      var k :| k in a && a[k] == r;
      var i :| 0 <= i < |paths| && LocalAt(paths[i], k);
      assert PathIsOwned(c, false, paths[i], a[k]);
      assert i == 1 && paths[0].local && paths[0].pathUUID == a[k].pathUUID && !FirstCarrier(paths, i, a[k].pathUUID);
    }
  }

  method ClassifyPaths(c: Codec, paths: seq<RibPath>, claims: map<string, Owned>) returns (s: Scan)
    ensures s == ScanPaths(c, paths, claims)
  {
    s := Scan(map[], {}, claims);
    for i := 0 to |paths|
      invariant s == ScanPaths(c, paths[..i], claims)
    {
      assert paths[..i + 1][..i] == paths[..i];
      s := ScanStep(c, s, paths[i]);
    }
    assert paths[..|paths|] == paths;
  }

  method AdoptPaths(c: Codec, paths: seq<RibPath>, receipts: seq<Owned>, claimed: map<string, Owned>)
    returns (r: Option<(Applied, set<string>)>)
    requires ClaimsByUUID(claimed, receipts)
    ensures r.Some? ==> Adoption(c, false, paths, receipts, r.value.0, r.value.1) && FirstCarriers(paths, r.value.0)
    ensures r.Some? <==> Adoptable(c, paths, receipts)
  {
    var s := ClassifyPaths(c, paths, claimed);
    if s.Conflict? || s.claims != map[] || !(s.applied.Keys !! s.foreign) {
      NotAdoptable(c, paths, receipts, claimed, s);
      return None;
    }
    ScanPathsAdoption(c, paths, receipts, claimed);
    ScanFirstCarriers(c, paths, receipts, claimed);
    return Some((s.applied, s.foreign));
  }

  ghost predicate ClaimsByKey(c: Codec, claims: Applied, receipts: seq<Owned>)
  {
    && (forall r | r in receipts :: c.build(r.endpoint).Some? && r.pathUUID != ""
          && c.build(r.endpoint).value.nlri.text in claims && claims[c.build(r.endpoint).value.nlri.text] == r)
    && (forall key | key in claims :: claims[key] in receipts
          && c.build(claims[key].endpoint).Some? && c.build(claims[key].endpoint).value.nlri.text == key)
  }

  /** Every receipt can be built and has a UUID, and no two have the same wire key. */
  ghost predicate DurablyClaimable(c: Codec, receipts: seq<Owned>)
  {
    && (forall r | r in receipts :: c.build(r.endpoint).Some? && r.pathUUID != "")
    && (forall i, j | 0 <= i < j < |receipts| && c.build(receipts[i].endpoint).Some? && c.build(receipts[j].endpoint).Some? ::
          c.build(receipts[i].endpoint).value.nlri.text != c.build(receipts[j].endpoint).value.nlri.text)
  }

  method ClaimDurable(c: Codec, receipts: seq<Owned>) returns (claims: Option<Applied>)
    ensures claims.Some? <==> DurablyClaimable(c, receipts)
    ensures claims.Some? ==> ClaimsByKey(c, claims.value, receipts)
  {
    var m: Applied := map[];
    for i := 0 to |receipts|
      invariant DurablyClaimable(c, receipts[..i]) && ClaimsByKey(c, m, receipts[..i])
    {
      var r := receipts[i];
      assert r in receipts && receipts[..i + 1] == receipts[..i] + [r];
      var route := c.build(r.endpoint);
      if route.None? || r.pathUUID == "" { return None; }
      if route.value.nlri.text in m {
        var j :| 0 <= j < i && receipts[..i][j] == m[route.value.nlri.text];
        assert receipts[j] == m[route.value.nlri.text];
        return None;
      }
      m := m[route.value.nlri.text := r];
    }
    assert receipts[..|receipts|] == receipts;
    return Some(m);
  }

  function DurableStep(c: Codec, s: Scan, path: RibPath): Scan
  {
    if s.Conflict? || path.nlri.None? then Conflict
    else if !path.local then s
    else
      var key := path.nlri.value.text;
      if key !in s.claims then s.(foreign := s.foreign + {key})
      else if key in s.applied || !RibPathMatches(c, path, s.claims[key].endpoint)
              || (path.pathUUID != "" && path.pathUUID != s.claims[key].pathUUID) then Conflict
      else s.(applied := s.applied[key := s.claims[key]])
  }

  function ScanDurable(c: Codec, paths: seq<RibPath>, claims: Applied): Scan
  {
    if paths == [] then Scan(map[], {}, claims)
    else DurableStep(c, ScanDurable(c, paths[..|paths| - 1], claims), paths[|paths| - 1])
  }

  lemma {:induction false} ScanDurableSound(c: Codec, paths: seq<RibPath>, n: nat, claims: Applied)
    returns (at: map<string, nat>)
    requires n <= |paths| && ScanDurable(c, paths[..n], claims).Scan?
    ensures var s := ScanDurable(c, paths[..n], claims);
      && s.claims == claims && Scanned(c, true, paths, n, s.applied, s.foreign, at)
      && (forall key | key in s.applied :: key in claims && s.applied[key] == claims[key])
      && s.foreign !! claims.Keys
  {
    if n == 0 {
      at := map[];
    } else {
      assert paths[..n][..n - 1] == paths[..n - 1];
      at := ScanDurableSound(c, paths, n - 1, claims);
      var before, path := ScanDurable(c, paths[..n - 1], claims), paths[n - 1];
      if path.local && path.nlri.value.text in claims {
        var key := path.nlri.value.text;
        ScanOwned(c, true, paths, n - 1, before.applied, before.foreign, at, key, claims[key]);
        at := at[key := n - 1];
      } else {
        ScanForeign(c, true, paths, n - 1, before.applied, before.foreign, at);
      }
    }
  }

  lemma ScanDurableComplete(c: Codec, paths: seq<RibPath>, claims: Applied) returns (at: map<string, nat>)
    requires var s := ScanDurable(c, paths, claims); s.Scan? && |s.applied| == |claims|
    ensures var s := ScanDurable(c, paths, claims);
      s.applied == claims && Scanned(c, true, paths, |paths|, claims, s.foreign, at) && claims.Keys !! s.foreign
  {
    var s := ScanDurable(c, paths, claims);
    assert paths[..|paths|] == paths;
    at := ScanDurableSound(c, paths, |paths|, claims);
    SubsetOfEqualSize(s.applied.Keys, claims.Keys);
    assert s.applied == claims;
  }

  lemma ScanDurableAdoption(c: Codec, paths: seq<RibPath>, receipts: seq<Owned>, claims: Applied)
    requires ClaimsByKey(c, claims, receipts)
    requires var s := ScanDurable(c, paths, claims); s.Scan? && |s.applied| == |claims|
    ensures var s := ScanDurable(c, paths, claims);
      s.applied == claims && Adoption(c, true, paths, receipts, claims, s.foreign)
  {
    var s := ScanDurable(c, paths, claims);
    var at := ScanDurableComplete(c, paths, claims);
    ScannedAdoption(c, true, paths, receipts, claims, s.foreign, at);
  }

  lemma {:induction false} ScanDurableFinds(c: Codec, paths: seq<RibPath>, n: nat, receipts: seq<Owned>,
                                            claims: Applied, foreign: set<string>)
    requires n <= |paths| && Adoption(c, true, paths, receipts, claims, foreign)
    ensures Reached(paths, n, claims, foreign, ScanDurable(c, paths[..n], claims))
    ensures ScanDurable(c, paths[..n], claims).claims == claims
  {
    if n > 0 {
      assert paths[..n][..n - 1] == paths[..n - 1];
      ScanDurableFinds(c, paths, n - 1, receipts, claims, foreign);
      var before, now, path := ScanDurable(c, paths[..n - 1], claims), ScanDurable(c, paths[..n], claims), paths[n - 1];
      if path.local {
        var key := path.nlri.value.text;
        assert LocalAt(path, key) && ReachedAt(paths, n - 1, claims, foreign, before, key);
        if key in claims {
          assert PathIsOwned(c, true, path, claims[key]);
          forall i | 0 <= i < n - 1 ensures !LocalAt(paths[i], key) { }
        }
      }
      var m := n - 1;
      forall k ensures ReachedAt(paths, n, claims, foreign, now, k) {
        assert ReachedAt(paths, m, claims, foreign, before, k);
        BeforeNext(paths, m, k);
      }
    }
  }

  /** The durable scan fails only where nothing can be adopted. */
  lemma DurableAdoptionFound(c: Codec, paths: seq<RibPath>, receipts: seq<Owned>, claims: Applied, foreign: set<string>)
    requires Adoption(c, true, paths, receipts, claims, foreign)
    ensures ScanDurable(c, paths, claims) == Scan(claims, foreign, claims)
  {
    ScanDurableFinds(c, paths, |paths|, receipts, claims, foreign);
    assert paths[..|paths|] == paths;
    AllReached(c, true, paths, receipts, claims, foreign, ScanDurable(c, paths, claims));
  }

  ghost predicate NoDurableAdoption(c: Codec, paths: seq<RibPath>, receipts: seq<Owned>, claims: Applied)
  {
    forall foreign :: !Adoption(c, true, paths, receipts, claims, foreign)
  }

  lemma DurableAdoptionIsFound(c: Codec, paths: seq<RibPath>, receipts: seq<Owned>, claims: Applied, s: Scan)
    requires s == ScanDurable(c, paths, claims)
    ensures s.Conflict? || |s.applied| != |claims| ==> NoDurableAdoption(c, paths, receipts, claims)
  {
    forall foreign | Adoption(c, true, paths, receipts, claims, foreign) ensures s == Scan(claims, foreign, claims) {
      DurableAdoptionFound(c, paths, receipts, claims, foreign);
    }
  }

  method ClassifyDurable(c: Codec, paths: seq<RibPath>, claims: Applied) returns (s: Scan)
    ensures s == ScanDurable(c, paths, claims)
  {
    s := Scan(map[], {}, claims);
    for i := 0 to |paths|
      invariant s == ScanDurable(c, paths[..i], claims)
    {
      assert paths[..i + 1][..i] == paths[..i];
      s := DurableStep(c, s, paths[i]);
    }
    assert paths[..|paths|] == paths;
  }

  method AdoptDurable(c: Codec, paths: seq<RibPath>, receipts: seq<Owned>, claims: Applied)
    returns (r: Option<(Applied, set<string>)>)
    requires ClaimsByKey(c, claims, receipts)
    ensures r.Some? ==> r.value.0 == claims && Adoption(c, true, paths, receipts, claims, r.value.1)
    ensures r.None? ==> NoDurableAdoption(c, paths, receipts, claims)
  {
    var s := ClassifyDurable(c, paths, claims);
    DurableAdoptionIsFound(c, paths, receipts, claims, s);
    if s.Conflict? { return None; }
    if |s.applied| != |claims| { return None; }
    ScanDurableAdoption(c, paths, receipts, claims);
    return Some((s.applied, s.foreign));
  }

  lemma SubsetOfEqualSize(a: set<string>, b: set<string>)
    requires a <= b && |a| == |b|
    ensures a == b
  {
    assert b == a + (b - a);
  }

  // ---------------------------------------------------------------- the reconciler

  /** A planned operation; its identity is what makes a plan current or stale. */
  class RouteOperation {
    const says: Delta

    constructor (d: Delta)
      ensures says == d
    {
      says := d;
    }
  }

  ghost function Says(ops: seq<RouteOperation>): seq<Delta>
  {
    seq(|ops|, i requires 0 <= i < |ops| => ops[i].says)
  }

  /** What Apply would ask of the route applier. */
  datatype Request = NoRequest | AddRequest(endpoint: LocalEndpoint) | DeleteRequest(owned: Owned)

  datatype Outcome = ApiError | ApiOk(id: string)

  class RouteReconciler {
    const codec: Codec
    var applied: Applied
    var foreign: set<string>
    var pending: set<RouteOperation>
    var synchronized: bool
    ghost var log: seq<Event>
    ghost var executed: set<RouteOperation>

    ghost predicate Valid()
      reads this
    {
      && Records(log, applied, foreign)
      && pending !! executed
      && (forall key | key in applied :: codec.build(applied[key].endpoint).Some?)
      && (forall op | op in pending && op.says.action == Advertise :: op.says.wireKey !in foreign)
    }

    constructor (codec: Codec)
      ensures Valid() && this.codec == codec && applied == map[] && foreign == {} && pending == {}
      ensures !synchronized && log == [] && executed == {}
    {
      this.codec := codec;
      applied, foreign, pending, synchronized, log, executed := map[], {}, {}, false, [], {};
    }

    method Unsettled(keys: set<string>, desired: Desired) returns (q: seq<string>)
      ensures q == SortedKeys(set key | key in keys && !Agrees(codec, applied, desired, key))
    {
      var all := SortedKeys(keys);
      SortedKeysSorted(keys);
      q := [];
      for i := 0 to |all|
        invariant StrictlySorted(q)
        invariant forall key :: key in q <==> key in all[..i] && !Agrees(codec, applied, desired, key)
      {
        assert forall j | 0 <= j < |q| :: q[j] in q;
        if !Agrees(codec, applied, desired, all[i]) { q := q + [all[i]]; }
      }
      assert all[..|all|] == all;
      var unsettled := set key | key in keys && !Agrees(codec, applied, desired, key);
      SortedKeysSorted(unsettled);
      StrictlySortedUnique(q, SortedKeys(unsettled));
    }

    method PlanDeltas(want: Desired) returns (deltas: seq<Delta>)
      ensures deltas == Plan(codec, applied, want)
    {
      var withdraw := Unsettled(applied.Keys, want);
      var advertise := Unsettled(want.Keys, want);
      assert (set key | key in applied.Keys && !Agrees(codec, applied, want, key)) == Obsolete(codec, applied, want);
      assert (set key | key in want.Keys && !Agrees(codec, applied, want, key)) == Missing(codec, applied, want);
      deltas := Listed(applied, want, withdraw, advertise);
    }

    /** Give each planned delta its own identity and make it executable. */
    method Issue(deltas: seq<Delta>) returns (ops: seq<RouteOperation>)
      modifies this`pending
      ensures |ops| == |deltas| && fresh(ops) && pending == old(pending) + (set op | op in ops)
      ensures forall j | 0 <= j < |ops| :: ops[j].says == deltas[j]
      ensures forall j, k | 0 <= j < k < |ops| :: ops[j] != ops[k]
    {
      ops := [];
      for i := 0 to |deltas|
        invariant |ops| == i && fresh(ops) && pending == old(pending) + (set op | op in ops)
        invariant forall j | 0 <= j < i :: ops[j].says == deltas[j]
        invariant forall j, k | 0 <= j < k < i :: ops[j] != ops[k]
      {
        var op := new RouteOperation(deltas[i]);
        ops := ops + [op];
        pending := pending + {op};
      }
    }

    /** A new plan replaces every pending operation, also when planning fails. */
    method Reconcile(desired: seq<LocalEndpoint>) returns (plan: Option<seq<RouteOperation>>)
      requires Valid()
      modifies this`pending
      ensures Valid() && fresh(pending)
      ensures plan.Some? <==> Coherent(codec, foreign, desired)
      ensures plan.None? ==> pending == {}
      ensures plan.Some? ==>
        && Says(plan.value) == Plan(codec, applied, Collect(codec, desired))
        && PlanOk(codec, applied, desired, Says(plan.value))
        && (forall i, j | 0 <= i < j < |plan.value| :: plan.value[i] != plan.value[j])
        && pending == set op | op in plan.value
    {
      pending := {};
      var built := BuildDesired(codec, foreign, desired);
      if built.None? { return None; }
      var want := built.value;
      var deltas := PlanDeltas(want);
      var ops := Issue(deltas);
      PlanAvoidsForeign(codec, applied, foreign, desired);
      PlanIsOk(codec, applied, foreign, desired);
      assert Says(ops) == deltas;
      assert forall op | op in pending :: exists i :: 0 <= i < |ops| && ops[i] == op;
      return Some(ops);
    }

    /** `snapshot` is None when the RIB could not be read completely. Pending operations
        never survive, and a failure leaves the reconciler unsynchronized. */
    method Resync(snapshot: Option<seq<RibPath>>, cancelled: bool, receipts: seq<Owned>) returns (ok: bool)
      requires Valid()
      modifies this
      ensures Valid() && pending == {} && executed == old(executed) && synchronized == ok
      ensures ok ==> snapshot.Some? && Adoption(codec, false, snapshot.value, receipts, applied, foreign)
                     && Claimable(codec, receipts) && log == old(log) + [Resynced(UUIDs(applied), foreign)]
      ensures !ok ==> applied == old(applied) && foreign == old(foreign) && log == old(log)
      ensures ok <==> snapshot.Some? && !cancelled && Claimable(codec, receipts) && Adoptable(codec, snapshot.value, receipts)
    {
      synchronized, pending := false, {};
      if snapshot.None? || cancelled { return false; }
      var claims := ClaimReceipts(codec, receipts);
      if claims.None? { return false; }
      var adopted := AdoptPaths(codec, snapshot.value, receipts, claims.value);
      if adopted.None? { return false; }
      Adopted(adopted.value.0, adopted.value.1);
      return true;
    }

    /** Only the durable exporter uses this: the receipts are already owned, the snapshot
        is a readback. A cancellation is reported after the new view is installed. */
    method ResyncDurable(snapshot: Option<seq<RibPath>>, cancelled: bool, receipts: seq<Owned>) returns (ok: bool)
      requires Valid()
      modifies this
      ensures Valid() && pending == {} && executed == old(executed)
      ensures ok ==> synchronized
      ensures synchronized ==>
        && snapshot.Some? && ClaimsByKey(codec, applied, receipts)
        && Adoption(codec, true, snapshot.value, receipts, applied, foreign)
        && log == old(log) + [Resynced(UUIDs(applied), foreign)]
      ensures !synchronized ==> applied == old(applied) && foreign == old(foreign) && log == old(log)
      ensures !synchronized && snapshot.Some? && DurablyClaimable(codec, receipts) ==>
        exists claims :: ClaimsByKey(codec, claims, receipts) && NoDurableAdoption(codec, snapshot.value, receipts, claims)
    {
      synchronized, pending := false, {};
      if snapshot.None? { return false; }
      var claims := ClaimDurable(codec, receipts);
      if claims.None? { return false; }
      var adopted := AdoptDurable(codec, snapshot.value, receipts, claims.value);
      if adopted.None? { return false; }
      Adopted(adopted.value.0, adopted.value.1);
      return !cancelled;
    }

    method Adopted(claims: Applied, others: set<string>)
      requires Valid() && pending == {} && claims.Keys !! others
      requires forall key | key in claims :: codec.build(claims[key].endpoint).Some?
      modifies this`applied, this`foreign, this`synchronized, this`log
      ensures Valid() && applied == claims && foreign == others && synchronized
      ensures log == old(log) + [Resynced(UUIDs(claims), others)]
    {
      RecordsResync(log, applied, foreign, claims, others);
      log, applied, foreign, synchronized := log + [Resynced(UUIDs(claims), others)], claims, others, true;
    }

    function RequestOf(op: RouteOperation?, cancelled: bool): Request
      reads this
    {
      if !synchronized || op == null || op !in pending || cancelled then NoRequest
      else if op.says.action == Advertise then
        if op.says.wireKey in applied || codec.build(op.says.endpoint).None? then NoRequest
        else AddRequest(op.says.endpoint)
      else if op.says.wireKey !in applied then NoRequest
      else
        var current := applied[op.says.wireKey];
        if current.pathUUID != op.says.pathUUID || !Equivalent(codec, current.endpoint, op.says.endpoint) then NoRequest
        else DeleteRequest(current)
    }

    method RecordAdded(o: RouteOperation, id: string)
      requires Valid() && o in pending && o.says.action == Advertise && o.says.wireKey !in applied
      requires codec.build(o.says.endpoint).Some? && id != ""
      modifies this`log, this`applied, this`pending, this`executed
      ensures Valid() && pending == old(pending) - {o} && executed == old(executed) + {o}
      ensures applied == Execute(old(applied), o.says, id) && log == old(log) + [Added(o.says.wireKey, id)]
    {
      var key, owned := o.says.wireKey, Owned(o.says.endpoint, id);
      RecordsAdd(log, applied, foreign, key, owned);
      log, applied := log + [Added(key, id)], applied[key := owned];
      pending, executed := pending - {o}, executed + {o};
    }

    method RecordDeleted(o: RouteOperation)
      requires Valid() && o in pending && o.says.action != Advertise && o.says.wireKey in applied
      requires applied[o.says.wireKey].pathUUID == o.says.pathUUID
      modifies this`log, this`applied, this`pending, this`executed
      ensures Valid() && pending == old(pending) - {o} && executed == old(executed) + {o}
      ensures applied == Execute(old(applied), o.says, "") && log == old(log) + [Deleted(o.says.wireKey, o.says.pathUUID)]
    {
      var key := o.says.wireKey;
      RecordsDelete(log, applied, foreign, key);
      log, applied := log + [Deleted(key, applied[key].pathUUID)], Without(applied, key);
      pending, executed := pending - {o}, executed + {o};
    }

    /** `outcome` is what the applier answers when `RequestOf(op, cancelled)` is put to it. */
    method Apply(op: RouteOperation?, cancelled: bool, outcome: Outcome) returns (ok: bool)
      requires Valid()
      modifies this
      ensures Valid()
      ensures ok <==> old(RequestOf(op, cancelled)) != NoRequest && outcome.ApiOk?
                      && (old(RequestOf(op, cancelled)).AddRequest? ==> outcome.id != "")
      ensures foreign == old(foreign)
      ensures ok ==>
        var o: RouteOperation := op;
        && o in old(pending) && o !in old(executed) && synchronized
        && pending == old(pending) - {o} && executed == old(executed) + {o}
        && applied == Execute(old(applied), o.says, outcome.id)
        && log == old(log) + [if o.says.action == Advertise then Added(o.says.wireKey, outcome.id)
                              else Deleted(o.says.wireKey, o.says.pathUUID)]
      ensures !ok ==> applied == old(applied) && pending == old(pending) && executed == old(executed) && log == old(log)
      ensures !ok ==> synchronized == (old(synchronized) && !(old(RequestOf(op, cancelled)).AddRequest? && outcome.ApiOk?))
    {
      if !synchronized || op == null || op !in pending || cancelled { return false; }
      var o: RouteOperation := op;
      var key := o.says.wireKey;
      if o.says.action == Advertise {
        if key in applied || codec.build(o.says.endpoint).None? || outcome.ApiError? { return false; }
        if outcome.id == "" {
          synchronized := false;
          return false;
        }
        RecordAdded(o, outcome.id);
      } else {
        if key !in applied || applied[key].pathUUID != o.says.pathUUID
           || !Equivalent(codec, applied[key].endpoint, o.says.endpoint) || outcome.ApiError? { return false; }
        RecordDeleted(o);
      }
      return true;
    }
  }

  /** A plan advertises only keys that no unclaimed local path occupies. */
  lemma PlanAvoidsForeign(c: Codec, applied: Applied, foreign: set<string>, desired: seq<LocalEndpoint>)
    requires Coherent(c, foreign, desired)
    ensures forall i | 0 <= i < |Plan(c, applied, Collect(c, desired))| ::
      var d := Plan(c, applied, Collect(c, desired))[i];
      d.action == Advertise ==> d.wireKey !in foreign
  {
    var want := Collect(c, desired);
    var w, a := SortedKeys(Obsolete(c, applied, want)), SortedKeys(Missing(c, applied, want));
    CollectContents(c, desired);
    forall i | 0 <= i < |Listed(applied, want, w, a)|
      ensures var d := Listed(applied, want, w, a)[i]; d.action == Advertise ==> d.wireKey !in foreign
    {
      ListedAt(applied, want, w, a, i);
    }
  }

  lemma {:induction false} ListedAt(applied: Applied, desired: Desired, w: seq<string>, a: seq<string>, i: nat)
    requires forall key | key in w :: key in applied
    requires forall key | key in a :: key in desired
    requires i < |w| + |a|
    ensures |Listed(applied, desired, w, a)| == |w| + |a|
    ensures Listed(applied, desired, w, a)[i]
         == if i < |w| then WithdrawDelta(applied, w[i]) else AdvertiseDelta(desired, a[i - |w|])
    decreases |w| + |a|
  {
    if i > 0 {
      if |w| > 0 {
        ListedAt(applied, desired, w[1..], a, i - 1);
      } else {
        assert w == [];
        ListedAt(applied, desired, w, a[1..], i - 1);
      }
    }
  }

  /** Until a plan is executed to its end, its next operation is a request: a withdrawal asks to delete the
      applied route it names, an advertisement asks to add the endpoint it names. */
  ghost predicate Asks(d: Delta, request: Request)
  {
    match d.action
    case Withdraw => request == DeleteRequest(Owned(d.endpoint, d.pathUUID))
    case Advertise => request == AddRequest(d.endpoint)
  }

  lemma HeadIsRequested(r: RouteReconciler, op: RouteOperation, want: Desired)
    requires r.synchronized && op in r.pending
    requires forall key | key in want :: r.codec.build(want[key]).Some?
    requires var plan := Plan(r.codec, r.applied, want); plan != [] && op.says == plan[0]
    ensures Asks(op.says, r.RequestOf(op, false))
  {
    var w, a := PlanListings(r.codec, r.applied, want);
    SpelledDelta(r.applied, want, w, a, Plan(r.codec, r.applied, want), 0);
    if w == [] {
      forall key | key in r.applied ensures Agrees(r.codec, r.applied, want, key) { assert key !in w; }
      assert op.says.wireKey in a;
    }
  }

  ghost predicate Acknowledged(outcome: Outcome)
  {
    outcome.ApiOk? && outcome.id != ""
  }

  /** The operations are pending and are what is still to be done. */
  ghost predicate Remaining(r: RouteReconciler, want: Desired, ops: seq<RouteOperation>)
    reads r
  {
    && r.Valid() && r.synchronized && Says(ops) == Plan(r.codec, r.applied, want) && Issued(r.pending, ops)
  }

  ghost predicate Issued(pending: set<RouteOperation>, ops: seq<RouteOperation>)
  {
    (forall j | 0 <= j < |ops| :: ops[j] in pending) && forall j, k | 0 <= j < k < |ops| :: ops[j] != ops[k]
  }

  lemma IssuedTail(pending: set<RouteOperation>, ops: seq<RouteOperation>)
    requires ops != [] && Issued(pending, ops)
    ensures ops[0] in pending && Issued(pending - {ops[0]}, ops[1..])
    ensures Says(ops) == [ops[0].says] + Says(ops[1..])
  {
  }

  /** Executes the first operation of a plan, which is acknowledged. */
  method ApplyFirst(r: RouteReconciler, op: RouteOperation, ghost want: Desired, ghost plan: seq<Delta>, outcome: Outcome)
    returns (ghost asked: Request)
    requires r.Valid() && r.synchronized && op in r.pending && Acknowledged(outcome)
    requires forall key | key in want :: r.codec.build(want[key]).Some?
    requires plan == Plan(r.codec, r.applied, want) && plan != [] && op.says == plan[0]
    modifies r
    ensures r.Valid() && r.synchronized && r.foreign == old(r.foreign) && r.pending == old(r.pending) - {op}
    ensures Asks(op.says, asked) && Plan(r.codec, r.applied, want) == plan[1..]
  {
    HeadIsRequested(r, op, want);
    asked := r.RequestOf(op, false);
    ExecuteHead(r.codec, r.applied, want, outcome.id);
    var done := r.Apply(op, false, outcome);
    assert done;
  }

  method ApplyHead(r: RouteReconciler, ops: seq<RouteOperation>, ghost want: Desired, answer: Request -> Outcome)
    returns (ghost asked: Request)
    requires ops != [] && Remaining(r, want, ops) && forall q :: Acknowledged(answer(q))
    requires forall key | key in want :: r.codec.build(want[key]).Some?
    modifies r
    ensures r.foreign == old(r.foreign) && Remaining(r, want, ops[1..]) && Asks(ops[0].says, asked)
  {
    IssuedTail(r.pending, ops);
    var request := r.RequestOf(ops[0], false);
    asked := ApplyFirst(r, ops[0], want, Says(ops), answer(request));
  }

  ghost predicate AllAsked(ops: seq<RouteOperation>, asked: seq<Request>)
  {
    |asked| == |ops| && forall j | 0 <= j < |ops| :: Asks(ops[j].says, asked[j])
  }

  method ExecutePlan(r: RouteReconciler, ops: seq<RouteOperation>, ghost want: Desired, answer: Request -> Outcome)
    returns (ghost asked: seq<Request>)
    requires Remaining(r, want, ops) && forall q :: Acknowledged(answer(q))
    requires forall key | key in want :: r.codec.build(want[key]).Some?
    modifies r
    ensures r.foreign == old(r.foreign) && Remaining(r, want, []) && AllAsked(ops, asked)
    decreases |ops|
  {
    asked := [];
    if ops != [] {
      ghost var first := ApplyHead(r, ops, want, answer);
      asked := ExecutePlan(r, ops[1..], want, answer);
      asked := [first] + asked;
    }
  }

  lemma NothingRemains(c: Codec, applied: Applied, foreign: set<string>, desired: seq<LocalEndpoint>)
    requires Coherent(c, foreign, desired) && Plan(c, applied, Collect(c, desired)) == []
    ensures Exported(c, applied, desired)
  {
    PlanEmptyIffAgreed(c, applied, Collect(c, desired));
    AgreementIsExport(c, applied, foreign, desired);
  }

  lemma CollectedBuild(c: Codec, desired: seq<LocalEndpoint>)
    ensures forall key | key in Collect(c, desired) :: c.build(Collect(c, desired)[key]).Some?
  {
    CollectContents(c, desired);
  }

  /** Plans and executes the plan while every answer is an acknowledgement: every operation is a request,
      none is refused, and what is applied afterwards is what is wanted. */
  method Converge(r: RouteReconciler, desired: seq<LocalEndpoint>, answer: Request -> Outcome)
    returns (ops: seq<RouteOperation>, ghost asked: seq<Request>)
    requires r.Valid() && r.synchronized && Coherent(r.codec, r.foreign, desired)
    requires forall q :: Acknowledged(answer(q))
    modifies r
    ensures r.Valid() && r.synchronized && r.foreign == old(r.foreign)
    ensures PlanOk(r.codec, old(r.applied), desired, Says(ops)) && AllAsked(ops, asked)
    ensures Exported(r.codec, r.applied, desired)
  {
    CollectedBuild(r.codec, desired);
    var plan := r.Reconcile(desired);
    ops := plan.value;
    asked := ExecutePlan(r, ops, Collect(r.codec, desired), answer);
    NothingRemains(r.codec, r.applied, r.foreign, desired);
  }

  datatype ReconcilerCall =
    | CallReconcile(desired: seq<LocalEndpoint>)
    | CallApply(op: nat, cancelled: bool, outcome: Outcome)
    | CallResync(durable: bool, snapshot: Option<seq<RibPath>>, cancelled: bool, receipts: seq<Owned>)

  method ResyncEither(r: RouteReconciler, call: ReconcilerCall)
    requires r.Valid() && call.CallResync?
    modifies r
    ensures r.Valid() && r.pending == {} && r.executed == old(r.executed)
    ensures r.log == old(r.log) || (exists e: Event :: e.Resynced? && r.log == old(r.log) + [e])
  {
    if call.durable {
      var _ := r.ResyncDurable(call.snapshot, call.cancelled, call.receipts);
    } else {
      var _ := r.Resync(call.snapshot, call.cancelled, call.receipts);
    }
  }

  method ReplanRun(r: RouteReconciler, desired: seq<LocalEndpoint>, issued: seq<RouteOperation>, epochs: seq<nat>,
                   epoch: nat, ghost ran: seq<(nat, nat)>)
    returns (all: seq<RouteOperation>, stamps: seq<nat>)
    requires r.Valid() && epoch > 0 && RunState(r.pending, r.executed, issued, epochs, epoch - 1, ran)
    modifies r`pending
    ensures r.Valid() && RunState(r.pending, r.executed, all, stamps, epoch, ran) && epochs <= stamps && issued <= all
  {
    ghost var pending := r.pending;
    var plan := r.Reconcile(desired);
    if plan.None? {
      RunResyncs(pending, r.executed, issued, epochs, epoch, ran);
      return issued, epochs;
    }
    forall i, k | 0 <= i < |plan.value| && 0 <= k < |issued| ensures plan.value[i] != issued[k] {
      assert plan.value[i] in r.pending;
    }
    RunReplans(pending, r.executed, issued, epochs, epoch, ran, plan.value);
    return issued + plan.value, epochs + seq(|plan.value|, _ => epoch);
  }

  method ApplyRun(r: RouteReconciler, call: ReconcilerCall, issued: seq<RouteOperation>, epochs: seq<nat>, epoch: nat,
                  ran: seq<(nat, nat)>)
    returns (now: seq<(nat, nat)>)
    requires r.Valid() && call.CallApply? && RunState(r.pending, r.executed, issued, epochs, epoch, ran)
    modifies r
    ensures r.Valid() && RunState(r.pending, r.executed, issued, epochs, epoch, now)
    ensures (r.log == old(r.log) && now == ran)
            || (call.op < |issued| && exists e ::
                  Acknowledges(e, issued[call.op].says) && r.log == old(r.log) + [e] && now == ran + [(call.op, epoch)])
  {
    now := ran;
    if call.op < |issued| {
      ghost var pending, executed := r.pending, r.executed;
      var ok := r.Apply(issued[call.op], call.cancelled, call.outcome);
      if ok {
        assert r.log == old(r.log) + [r.log[|old(r.log)|]] && Acknowledges(r.log[|old(r.log)|], issued[call.op].says);
        RunApplies(pending, executed, issued, epochs, epoch, ran, call.op);
        now := ran + [(call.op, epoch)];
      }
    }
  }

  /** The acknowledged Adds and Deletes of a log, in order. */
  ghost function Changes(log: seq<Event>): seq<Event>
  {
    if log == [] then []
    else Changes(log[..|log| - 1]) + if log[|log| - 1].Resynced? then [] else [log[|log| - 1]]
  }

  ghost predicate Acknowledges(e: Event, d: Delta)
  {
    if d.action == Advertise then e.Added? && e.key == d.wireKey else e == Deleted(d.wireKey, d.pathUUID)
  }

  ghost predicate AckedAt(before: seq<Event>, log: seq<Event>, issued: seq<RouteOperation>, ran: seq<(nat, nat)>, i: int)
  {
    0 <= i < |ran| ==>
      && ran[i].0 < |issued| && |before| + i < |Changes(log)|
      && Acknowledges(Changes(log)[|before| + i], issued[ran[i].0].says)
  }

  /** Since `before`, the log has gained exactly the acknowledgements of the executed operations, in order. */
  ghost predicate RunLog(before: seq<Event>, log: seq<Event>, issued: seq<RouteOperation>, ran: seq<(nat, nat)>)
  {
    && before <= Changes(log) && |Changes(log)| == |before| + |ran|
    && forall i :: AckedAt(before, log, issued, ran, i)
  }

  lemma ChangesExtends(log: seq<Event>, e: Event)
    ensures Changes(log + [e]) == Changes(log) + if e.Resynced? then [] else [e]
  {
    assert (log + [e])[..|log|] == log;
  }

  lemma RunLogResyncs(before: seq<Event>, log: seq<Event>, issued: seq<RouteOperation>, ran: seq<(nat, nat)>, e: Event)
    requires RunLog(before, log, issued, ran) && e.Resynced?
    ensures RunLog(before, log + [e], issued, ran)
  {
    ChangesExtends(log, e);
    var more := log + [e];
    forall i ensures AckedAt(before, more, issued, ran, i) { assert AckedAt(before, log, issued, ran, i); }
  }

  lemma RunLogReplans(before: seq<Event>, log: seq<Event>, issued: seq<RouteOperation>, all: seq<RouteOperation>,
                      ran: seq<(nat, nat)>)
    requires RunLog(before, log, issued, ran) && issued <= all
    ensures RunLog(before, log, all, ran)
  {
    forall i ensures AckedAt(before, log, all, ran, i) { assert AckedAt(before, log, issued, ran, i); }
  }

  lemma RunLogApplies(before: seq<Event>, log: seq<Event>, issued: seq<RouteOperation>, ran: seq<(nat, nat)>, k: nat,
                      epoch: nat, e: Event)
    requires RunLog(before, log, issued, ran) && k < |issued| && Acknowledges(e, issued[k].says)
    ensures RunLog(before, log + [e], issued, ran + [(k, epoch)])
  {
    ChangesExtends(log, e);
    var more, now := log + [e], ran + [(k, epoch)];
    forall i ensures AckedAt(before, more, issued, now, i) { assert AckedAt(before, log, issued, ran, i); }
  }

  /** Any interleaving of planning, applying (any operation ever issued, also a stale one) and
      resynchronizing. `epochs[k]` is the number of plans and resyncs when operation `k` was
      issued, `ran` lists the executed operations with the epoch they ran in: each runs at most
      once and only in its own epoch. The log only grows, and the Adds and Deletes it gains are
      exactly the acknowledgements of the executed operations, in their order. */
  method AnyReconcilerRun(r: RouteReconciler, calls: seq<ReconcilerCall>)
    returns (issued: seq<RouteOperation>, epochs: seq<nat>, ran: seq<(nat, nat)>)
    requires r.Valid() && r.pending == {} && r.executed == {}
    modifies r
    ensures r.Valid() && LegalLog(r.log) && |epochs| == |issued|
    ensures forall i | 0 <= i < |ran| :: ran[i].0 < |epochs| && epochs[ran[i].0] == ran[i].1
    ensures forall i, j | 0 <= i < j < |ran| :: ran[i].0 != ran[j].0
    ensures old(r.log) <= r.log && RunLog(Changes(old(r.log)), r.log, issued, ran)
  {
    var epoch := 0;
    issued, epochs, ran := [], [], [];
    for n := 0 to |calls|
      invariant r.Valid() && RunState(r.pending, r.executed, issued, epochs, epoch, ran)
      invariant old(r.log) <= r.log && RunLog(Changes(old(r.log)), r.log, issued, ran)
    {
      ghost var log, before := r.log, Changes(old(r.log));
      if calls[n].CallReconcile? {
        epoch := epoch + 1;
        ghost var known := issued;
        issued, epochs := ReplanRun(r, calls[n].desired, issued, epochs, epoch, ran);
        RunLogReplans(before, log, known, issued, ran);
      } else if calls[n].CallResync? {
        ghost var pending, executed := r.pending, r.executed;
        epoch := epoch + 1;
        ResyncEither(r, calls[n]);
        RunResyncs(pending, executed, issued, epochs, epoch, ran);
        if r.log != log {
          ghost var e: Event :| e.Resynced? && r.log == log + [e];
          RunLogResyncs(before, log, issued, ran, e);
        }
      } else {
        ghost var known := ran;
        ran := ApplyRun(r, calls[n], issued, epochs, epoch, ran);
        if r.log != log {
          ghost var e :| Acknowledges(e, issued[calls[n].op].says) && r.log == log + [e]
                         && ran == known + [(calls[n].op, epoch)];
          RunLogApplies(before, log, issued, known, calls[n].op, epoch, e);
        }
      }
    }
  }

  ghost predicate RunState(pending: set<RouteOperation>, executed: set<RouteOperation>, issued: seq<RouteOperation>,
                           epochs: seq<nat>, epoch: nat, ran: seq<(nat, nat)>)
  {
    && |epochs| == |issued| && pending !! executed
    && (forall k | 0 <= k < |issued| && issued[k] in pending :: epochs[k] == epoch)
    && (forall k, l | 0 <= k < l < |issued| :: issued[k] != issued[l])
    && (forall i | 0 <= i < |ran| ::
          ran[i].0 < |epochs| && epochs[ran[i].0] == ran[i].1 && issued[ran[i].0] in executed)
    && (forall i, j | 0 <= i < j < |ran| :: ran[i].0 != ran[j].0)
  }

  lemma RunResyncs(pending: set<RouteOperation>, executed: set<RouteOperation>, issued: seq<RouteOperation>,
                   epochs: seq<nat>, epoch: nat, ran: seq<(nat, nat)>)
    requires epoch > 0 && RunState(pending, executed, issued, epochs, epoch - 1, ran)
    ensures RunState({}, executed, issued, epochs, epoch, ran)
  {
  }

  lemma RunReplans(pending: set<RouteOperation>, executed: set<RouteOperation>, issued: seq<RouteOperation>,
                   epochs: seq<nat>, epoch: nat, ran: seq<(nat, nat)>, plan: seq<RouteOperation>)
    requires epoch > 0 && RunState(pending, executed, issued, epochs, epoch - 1, ran)
    requires forall i, j | 0 <= i < j < |plan| :: plan[i] != plan[j]
    requires forall i, k | 0 <= i < |plan| && 0 <= k < |issued| :: plan[i] != issued[k]
    requires (set op | op in plan) !! executed
    ensures RunState((set op | op in plan), executed, issued + plan, epochs + seq(|plan|, _ => epoch), epoch, ran)
  {
    var all := issued + plan;
    forall k | 0 <= k < |all| && all[k] in (set op | op in plan)
      ensures (epochs + seq(|plan|, _ => epoch))[k] == epoch
    {
      var i :| 0 <= i < |plan| && plan[i] == all[k];
    }
  }

  lemma RunApplies(pending: set<RouteOperation>, executed: set<RouteOperation>, issued: seq<RouteOperation>,
                   epochs: seq<nat>, epoch: nat, ran: seq<(nat, nat)>, k: nat)
    requires RunState(pending, executed, issued, epochs, epoch, ran) && k < |issued| && issued[k] in pending
    ensures RunState(pending - {issued[k]}, executed + {issued[k]}, issued, epochs, epoch, ran + [(k, epoch)])
  {
  }
}

/** Polling the remote RIB: reading, normalising, and confirming by a second equal reading. */
module RemotePolling {
  import opened Basics
  import opened RemoteRoutes
  import opened RemoteBindings

  datatype Issue = Issue(pathKey: string, reason: Reason)

  datatype Content = Content(endpoints: seq<Endpoint>, issues: seq<Issue>)

  datatype Reading = Uncertain | Observed(content: Content)

  // ---------------------------------------------------------------- sorting by a key

  ghost predicate SortedBy<T>(q: seq<T>, key: T -> string)
  {
    forall i, j | 0 <= i < j < |q| :: Leq(key(q[i]), key(q[j])) && key(q[i]) != key(q[j])
  }

  function WithKey<T>(items: seq<T>, key: T -> string, k: string): (x: T)
    requires exists i :: 0 <= i < |items| && key(items[i]) == k
    ensures x in items && key(x) == k
  {
    if key(items[0]) == k then items[0] else
      assert forall i | 0 < i < |items| :: items[i] == items[1..][i - 1];
      WithKey(items[1..], key, k)
  }

  function KeySet<T>(items: seq<T>, key: T -> string): set<string>
  {
    set i | 0 <= i < |items| :: key(items[i])
  }

  /** `sort.Slice` by a key that no two items share. */
  function SortByKey<T>(items: seq<T>, key: T -> string): (r: seq<T>)
    ensures |r| == |SortedKeys(KeySet(items, key))|
    ensures forall i | 0 <= i < |r| :: r[i] in items && key(r[i]) == SortedKeys(KeySet(items, key))[i]
  {
    var keys := SortedKeys(KeySet(items, key));
    seq(|keys|, i requires 0 <= i < |keys| =>
      assert keys[i] in keys;
      WithKey(items, key, keys[i]))
  }

  lemma SortByKeyCorrect<T>(items: seq<T>, key: T -> string)
    requires forall i, j | 0 <= i < |items| && 0 <= j < |items| && key(items[i]) == key(items[j]) :: items[i] == items[j]
    ensures SortedBy(SortByKey(items, key), key)
    ensures forall x | x in items :: x in SortByKey(items, key)
  {
    var keys, r := SortedKeys(KeySet(items, key)), SortByKey(items, key);
    SortedKeysSorted(KeySet(items, key));
    forall x | x in items ensures x in r {
      var i :| 0 <= i < |items| && items[i] == x;
      assert key(x) in keys;
      var j :| 0 <= j < |keys| && keys[j] == key(x);
      assert r[j] in items;
    }
  }

  /** A listing sorted by its keys is determined by its elements. */
  lemma {:induction false} SortedByUnique<T(!new)>(p: seq<T>, q: seq<T>, key: T -> string)
    requires SortedBy(p, key) && SortedBy(q, key) && forall x :: x in p <==> x in q
    ensures p == q
  {
    if |q| > 0 { assert q[0] in p; }
    if |p| > 0 {
      assert p[0] in q;
      var i :| 0 <= i < |q| && q[i] == p[0];
      assert q[0] in p;
      var j :| 0 <= j < |p| && p[j] == q[0];
      LeqTotal(key(p[0]), key(p[0]));
      LeqAntisymmetric(key(p[0]), key(q[0]));
      assert p[0] == q[0];
      forall x ensures x in p[1..] <==> x in q[1..] {
        if x in p[1..] { assert x in p && key(x) != key(p[0]); }
        if x in q[1..] { assert x in q && key(x) != key(q[0]); }
      }
      SortedByUnique(p[1..], q[1..], key);
      assert p == [p[0]] + p[1..] && q == [q[0]] + q[1..];
    }
  }

  function EndpointKey(e: Endpoint): string { e.key }

  function SourceKey(v: Validated): string { v.route.sourceKey }

  function PathKey(i: Issue): string { i.pathKey }

  // ---------------------------------------------------------------- what a reading means

  ghost function IssueSet(c: ImportConfig, R: set<Decoded>): set<Issue>
  {
    set r | r in R && ValidateRoute(c, r).Rejected? :: Issue(r.sourceKey, ValidateRoute(c, r).reason)
  }

  ghost predicate NormalEndpoint(c: ImportConfig, V: set<Validated>, e: Endpoint)
  {
    var slot := (e.networkID, e.mac);
    Describes(c, V, slot, e) && Evidence(V, slot, e.routes) && SortedBy(e.routes, SourceKey)
  }

  ghost predicate Covered(endpoints: seq<Endpoint>, slot: Slot)
  {
    exists e :: e in endpoints && (e.networkID, e.mac) == slot
  }

  /** One endpoint per network MAC with all its routes as evidence, one issue per rejected
      route, everything sorted. */
  ghost predicate NormalForm(c: ImportConfig, R: set<Decoded>, content: Content)
  {
    && SortedBy(content.endpoints, EndpointKey) && SortedBy(content.issues, PathKey)
    && (forall e | e in content.endpoints :: NormalEndpoint(c, Valids(c, R), e))
    && (forall v | v in Valids(c, R) :: Covered(content.endpoints, (v.networkID, v.route.mac)))
    && (forall i :: i in content.issues <==> i in IssueSet(c, R))
  }

  lemma NormalEndpointUnique(c: ImportConfig, V: set<Validated>, d: Endpoint, e: Endpoint)
    requires NormalEndpoint(c, V, d) && NormalEndpoint(c, V, e) && (d.networkID, d.mac) == (e.networkID, e.mac)
    ensures d == e
  {
    var slot := (d.networkID, d.mac);
    assert d.routes[0] in V && MacSlot(d.routes[0]) == slot;
    if d.ip != "" { var v :| v in V && MacSlot(v) == slot && v.route.ip == d.ip; }
    if e.ip != "" { var v :| v in V && MacSlot(v) == slot && v.route.ip == e.ip; }
    SortedByUnique(d.routes, e.routes, SourceKey);
  }

  lemma NormalEndpointIn(c: ImportConfig, R: set<Decoded>, a: Content, b: Content, e: Endpoint)
    requires NormalForm(c, R, a) && NormalForm(c, R, b) && e in a.endpoints
    ensures e in b.endpoints
  {
    var V := Valids(c, R);
    assert NormalEndpoint(c, V, e);
    assert e.routes[0] in V && MacSlot(e.routes[0]) == (e.networkID, e.mac);
    assert Covered(b.endpoints, (e.routes[0].networkID, e.routes[0].route.mac));
    var f :| f in b.endpoints && (f.networkID, f.mac) == MacSlot(e.routes[0]);
    NormalEndpointUnique(c, V, e, f);
  }

  /** A set of accepted paths has one normalised snapshot. */
  lemma NormalFormUnique(c: ImportConfig, R: set<Decoded>, a: Content, b: Content)
    requires NormalForm(c, R, a) && NormalForm(c, R, b)
    ensures a == b
  {
    forall e ensures e in a.endpoints <==> e in b.endpoints {
      if e in a.endpoints { NormalEndpointIn(c, R, a, b, e); }
      if e in b.endpoints { NormalEndpointIn(c, R, b, a, e); }
    }
    SortedByUnique(a.endpoints, b.endpoints, EndpointKey);
    SortedByUnique(a.issues, b.issues, PathKey);
  }

  /** A rejected route contests a validated one or a confirmed endpoint. */
  ghost predicate Quarantined(c: ImportConfig, R: set<Decoded>, confirmed: seq<Endpoint>)
  {
    exists r :: r in R && ValidateRoute(c, r).Rejected?
                && (ContestsRoute(c, r, Valids(c, R)) || exists e :: e in confirmed && Contests(c, r, e.networkID, e.mac, e.ip))
  }

  ghost predicate ContestsRoute(c: ImportConfig, r: Decoded, V: set<Validated>)
  {
    exists v :: v in V && Contests(c, r, v.networkID, v.route.mac, v.route.ip)
  }

  predicate TouchesEndpoint(c: ImportConfig, r: Decoded, endpoints: seq<Endpoint>)
  {
    exists e :: e in endpoints && Overlaps(c, r, e.networkID, e.mac, e.ip)
  }

  /** When one complete reading can be accepted at all. */
  ghost predicate Acceptable(c: ImportConfig, paths: seq<Raw>, confirmed: seq<Endpoint>)
  {
    Readable(paths) && Consistent(Valids(c, Firsts(paths))) && !Quarantined(c, Firsts(paths), confirmed)
  }

  // ---------------------------------------------------------------- scanning

  datatype Scan = Scan(bindings: Bindings, identities: map<string, string>, quarantined: seq<Decoded>)

  predicate ScanLinked(s: Scan) { Linked(s.bindings) }

  /** One iteration of the reading loop. */
  function ScanStep(c: ImportConfig, s: Scan, p: Raw): Option<Scan>
    requires ScanLinked(s)
  {
    if p.Undecodable? then None
    else
      var r := p.value;
      if r.kind != Remote then Some(s)
      else if r.stale || r.filtered || r.nexthopInvalid then None
      else if r.sourceKey in s.identities then
        if s.identities[r.sourceKey] != r.attributeKey then None else Some(s)
      else
        var known := s.(identities := s.identities[r.sourceKey := r.attributeKey]);
        match ValidateRoute(c, r)
        case Rejected(_) => Some(known.(quarantined := s.quarantined + [r]))
        case Accepted(v) =>
          var b := Bind(c, s.bindings, v);
          if b.None? then None else Some(known.(bindings := b.value))
  }

  ghost predicate TracksIdentities(identities: map<string, string>, R: set<Decoded>)
  {
    && (forall r | r in R :: r.sourceKey in identities && identities[r.sourceKey] == r.attributeKey)
    && (forall k | k in identities :: Known(R, k))
  }

  ghost predicate TracksRejects(c: ImportConfig, q: seq<Decoded>, R: set<Decoded>)
  {
    && (forall r :: r in q <==> r in R && ValidateRoute(c, r).Rejected?)
    && (forall i, j | 0 <= i < j < |q| :: q[i].sourceKey != q[j].sourceKey)
  }

  ghost predicate Tracks(c: ImportConfig, s: Scan, R: set<Decoded>)
  {
    && Represents(c, s.bindings, Valids(c, R)) && Consistent(Valids(c, R))
    && TracksIdentities(s.identities, R) && TracksRejects(c, s.quarantined, R)
  }

  lemma ValidsGrow(c: ImportConfig, R: set<Decoded>, r: Decoded)
    ensures ValidateRoute(c, r).Rejected? ==> Valids(c, R + {r}) == Valids(c, R)
    ensures ValidateRoute(c, r).Accepted? ==> Valids(c, R + {r}) == Valids(c, R) + {ValidateRoute(c, r).v}
    ensures AllAccepted(c, Valids(c, R))
  {
    forall v | v in Valids(c, R) ensures ValidateRoute(c, v.route) == Accepted(v) {
      var x :| x in R && ValidateRoute(c, x) == Accepted(v);
      AcceptedSound(c, x);
    }
  }

  lemma IdentitiesGrow(identities: map<string, string>, R: set<Decoded>, r: Decoded)
    requires TracksIdentities(identities, R) && !Known(R, r.sourceKey)
    ensures TracksIdentities(identities[r.sourceKey := r.attributeKey], R + {r})
  {
    forall k | k in identities[r.sourceKey := r.attributeKey] ensures Known(R + {r}, k) {
      if k != r.sourceKey {
        var x :| x in R && x.sourceKey == k;
        assert x in R + {r};
      } else {
        assert r in R + {r};
      }
    }
  }

  lemma RejectsGrow(c: ImportConfig, q: seq<Decoded>, R: set<Decoded>, r: Decoded)
    requires TracksRejects(c, q, R) && !Known(R, r.sourceKey)
    ensures TracksRejects(c, if ValidateRoute(c, r).Rejected? then q + [r] else q, R + {r})
  {
    forall i | 0 <= i < |q| ensures q[i].sourceKey != r.sourceKey { assert q[i] in q; }
  }

  lemma StepNew(c: ImportConfig, s: Scan, R: set<Decoded>, r: Decoded)
    requires ValidConfig(c) && HashInjective(c.parsers) && Tracks(c, s, R) && !Known(R, r.sourceKey)
    requires r.kind == Remote && !r.stale && !r.filtered && !r.nexthopInvalid
    ensures ScanStep(c, s, Decodes(r)).Some? <==> Consistent(Valids(c, R + {r}))
    ensures ScanStep(c, s, Decodes(r)).Some? ==> Tracks(c, ScanStep(c, s, Decodes(r)).value, R + {r})
  {
    assert r.sourceKey !in s.identities;
    ValidsGrow(c, R, r);
    ValidsGrow(c, R + {r}, r);
    IdentitiesGrow(s.identities, R, r);
    RejectsGrow(c, s.quarantined, R, r);
    if ValidateRoute(c, r).Accepted? {
      var v := ValidateRoute(c, r).v;
      AcceptedSound(c, r);
      forall x | x in Valids(c, R) ensures x.route.sourceKey != v.route.sourceKey {
        var y :| y in R && ValidateRoute(c, y) == Accepted(x);
        AcceptedSound(c, y);
      }
      BindCorrect(c, s.bindings, Valids(c, R), v);
    }
  }

  lemma ReadableExtends(init: seq<Raw>, p: Raw)
    requires Readable(init)
    ensures Readable(init + [p]) <==>
      && p.Decodes?
      && (p.value.kind == Remote ==>
            && !p.value.stale && !p.value.filtered && !p.value.nexthopInvalid
            && forall q | q in init && IsRemote(q) && q.value.sourceKey == p.value.sourceKey ::
                 q.value.attributeKey == p.value.attributeKey)
  {
    var all := init + [p];
    assert p in all;
    assert forall q | q in all :: q in init || q == p;
    assert forall q | q in init :: q in all;
  }

  lemma StepCorrect(c: ImportConfig, s: Scan, init: seq<Raw>, p: Raw)
    requires ValidConfig(c) && HashInjective(c.parsers) && Readable(init) && Tracks(c, s, Firsts(init))
    ensures ScanStep(c, s, p).Some? <==> Readable(init + [p]) && Consistent(Valids(c, Firsts(init + [p])))
    ensures ScanStep(c, s, p).Some? ==> Tracks(c, ScanStep(c, s, p).value, Firsts(init + [p]))
  {
    var R, all := Firsts(init), init + [p];
    assert all[..|all| - 1] == init;
    ReadableExtends(init, p);
    FirstsSound(init);
    if IsRemote(p) {
      var r := p.value;
      if Known(R, r.sourceKey) {
        var x :| x in R && x.sourceKey == r.sourceKey;
        assert Decodes(x) in init && IsRemote(Decodes(x));
        forall q | q in init && IsRemote(q) && q.value.sourceKey == r.sourceKey ensures q.value.attributeKey == x.attributeKey {
        }
      } else {
        forall q | q in init && IsRemote(q) ensures q.value.sourceKey != r.sourceKey { FirstsComplete(init, q.value); }
        if !r.stale && !r.filtered && !r.nexthopInvalid { StepNew(c, s, R, r); }
      }
    }
  }

  lemma {:induction false} FirstsMonotone(paths: seq<Raw>, n: nat)
    requires n <= |paths|
    ensures Firsts(paths[..n]) <= Firsts(paths)
  {
    if n < |paths| {
      var init := paths[..|paths| - 1];
      FirstsMonotone(init, n);
      assert init[..n] == paths[..n];
    } else {
      assert paths[..n] == paths;
    }
  }

  ghost predicate Scans(c: ImportConfig, paths: seq<Raw>)
  {
    Readable(paths) && Consistent(Valids(c, Firsts(paths)))
  }

  /** The first path that makes the reading uncertain. */
  ghost predicate StopsAt(c: ImportConfig, paths: seq<Raw>, k: int)
  {
    0 <= k < |paths| && Scans(c, paths[..k]) && !Scans(c, paths[..k + 1])
  }

  method ScanPaths(c: ImportConfig, paths: seq<Raw>) returns (s: Option<Scan>, stop: nat)
    requires ValidConfig(c) && HashInjective(c.parsers)
    ensures s.Some? <==> Readable(paths) && Consistent(Valids(c, Firsts(paths)))
    ensures s.Some? ==> Tracks(c, s.value, Firsts(paths))
    ensures s.None? ==> StopsAt(c, paths, stop)
  {
    var scan := Scan(Bindings(map[], map[], map[]), map[], []);
    for i := 0 to |paths|
      invariant Scans(c, paths[..i])
      invariant Readable(paths[..i]) && Tracks(c, scan, Firsts(paths[..i]))
    {
      assert paths[..i + 1] == paths[..i] + [paths[i]];
      StepCorrect(c, scan, paths[..i], paths[i]);
      var next := ScanStep(c, scan, paths[i]);
      if next.None? {
        PrefixRejects(c, paths, i + 1);
        return None, i;
      }
      scan := next.value;
    }
    assert paths[..|paths|] == paths;
    return Some(scan), |paths|;
  }

  lemma PrefixRejects(c: ImportConfig, paths: seq<Raw>, n: nat)
    requires n <= |paths| && !(Readable(paths[..n]) && Consistent(Valids(c, Firsts(paths[..n]))))
    ensures !(Readable(paths) && Consistent(Valids(c, Firsts(paths))))
  {
    FirstsMonotone(paths, n);
    assert forall p | p in paths[..n] :: p in paths;
    assert Valids(c, Firsts(paths[..n])) <= Valids(c, Firsts(paths));
  }

  // ---------------------------------------------------------------- finishing a reading

  function SortedEndpoint(e: Endpoint): Endpoint
  {
    e.(routes := SortByKey(e.routes, SourceKey))
  }

  function SortedEndpoints(b: Bindings): (q: seq<Endpoint>)
    ensures |q| == |SortedKeys(b.endpoints.Keys)|
    ensures forall i | 0 <= i < |q| ::
      SortedKeys(b.endpoints.Keys)[i] in b.endpoints && q[i] == SortedEndpoint(b.endpoints[SortedKeys(b.endpoints.Keys)[i]])
  {
    var keys := SortedKeys(b.endpoints.Keys);
    assert forall i | 0 <= i < |keys| :: keys[i] in keys;
    seq(|keys|, i requires 0 <= i < |keys| => SortedEndpoint(b.endpoints[keys[i]]))
  }

  function Issues(c: ImportConfig, q: seq<Decoded>): (issues: seq<Issue>)
    requires forall r | r in q :: ValidateRoute(c, r).Rejected?
    ensures |issues| == |q|
    ensures forall i | 0 <= i < |q| :: q[i] in q && issues[i] == Issue(q[i].sourceKey, ValidateRoute(c, q[i]).reason)
  {
    seq(|q|, i requires 0 <= i < |q| => Issue(q[i].sourceKey, ValidateRoute(c, q[i]).reason))
  }

  function Finish(c: ImportConfig, s: Scan): Content
    requires forall r | r in s.quarantined :: ValidateRoute(c, r).Rejected?
  {
    Content(SortedEndpoints(s.bindings), SortByKey(Issues(c, s.quarantined), PathKey))
  }

  lemma SortedEndpointNormal(c: ImportConfig, b: Bindings, V: set<Validated>, key: string)
    requires Represents(c, b, V) && key in b.endpoints
    ensures NormalEndpoint(c, V, SortedEndpoint(b.endpoints[key])) && b.endpoints[key].key == key
  {
    var e := b.endpoints[key];
    assert Owner(b, key) && SlotBound(c, b, V, (e.networkID, e.mac));
    forall i, j | 0 <= i < |e.routes| && 0 <= j < |e.routes| && SourceKey(e.routes[i]) == SourceKey(e.routes[j])
      ensures e.routes[i] == e.routes[j]
    {
    }
    SortByKeyCorrect(e.routes, SourceKey);
    EvidencePermutes(V, (e.networkID, e.mac), e.routes, SortByKey(e.routes, SourceKey));
  }

  lemma EvidencePermutes(V: set<Validated>, slot: Slot, p: seq<Validated>, q: seq<Validated>)
    requires Evidence(V, slot, p) && SortedBy(q, SourceKey) && (forall v | v in p :: v in q) && (forall v | v in q :: v in p)
    ensures Evidence(V, slot, q)
  {
    assert p[0] in q;
  }

  lemma EndpointsNormal(c: ImportConfig, b: Bindings, V: set<Validated>)
    requires Represents(c, b, V)
    ensures SortedBy(SortedEndpoints(b), EndpointKey)
    ensures forall e | e in SortedEndpoints(b) :: NormalEndpoint(c, V, e)
    ensures forall v | v in V :: Covered(SortedEndpoints(b), (v.networkID, v.route.mac))
  {
    var keys, q := SortedKeys(b.endpoints.Keys), SortedEndpoints(b);
    SortedKeysSorted(b.endpoints.Keys);
    forall i | 0 <= i < |q| ensures NormalEndpoint(c, V, q[i]) && q[i].key == keys[i] {
      SortedEndpointNormal(c, b, V, keys[i]);
    }
    forall v | v in V ensures Covered(q, (v.networkID, v.route.mac)) {
      assert SlotBound(c, b, V, MacSlot(v));
      var key := b.macs[MacSlot(v)];
      assert key in keys;
      var i :| 0 <= i < |keys| && keys[i] == key;
      assert q[i] in q;
    }
  }

  lemma IssuesNormal(c: ImportConfig, q: seq<Decoded>, R: set<Decoded>)
    requires TracksRejects(c, q, R)
    ensures SortedBy(SortByKey(Issues(c, q), PathKey), PathKey)
    ensures forall i :: i in SortByKey(Issues(c, q), PathKey) <==> i in IssueSet(c, R)
  {
    var issues := Issues(c, q);
    forall i, j | 0 <= i < |issues| && 0 <= j < |issues| && PathKey(issues[i]) == PathKey(issues[j])
      ensures issues[i] == issues[j]
    {
    }
    SortByKeyCorrect(issues, PathKey);
    IssuesComplete(c, q, R);
  }

  lemma IssuesComplete(c: ImportConfig, q: seq<Decoded>, R: set<Decoded>)
    requires TracksRejects(c, q, R)
    ensures forall i :: i in Issues(c, q) <==> i in IssueSet(c, R)
  {
    var issues := Issues(c, q);
    forall x | x in issues ensures x in IssueSet(c, R) {
      var i :| 0 <= i < |issues| && issues[i] == x;
      assert q[i] in R;
    }
    forall x | x in IssueSet(c, R) ensures x in issues {
      var r :| r in R && ValidateRoute(c, r).Rejected? && x == Issue(r.sourceKey, ValidateRoute(c, r).reason);
      var i :| 0 <= i < |q| && q[i] == r;
      assert issues[i] == x;
    }
  }

  /** A rejected route may not touch an endpoint of this reading or a confirmed one. */
  predicate Clashes(c: ImportConfig, q: seq<Decoded>, endpoints: seq<Endpoint>, confirmed: seq<Endpoint>)
  {
    exists r :: r in q && (TouchesEndpoint(c, r, endpoints) || TouchesEndpoint(c, r, confirmed))
  }

  lemma TouchesIff(c: ImportConfig, r: Decoded, endpoints: seq<Endpoint>)
    ensures TouchesEndpoint(c, r, endpoints) <==> exists e :: e in endpoints && Contests(c, r, e.networkID, e.mac, e.ip)
  {
    forall e: Endpoint ensures Overlaps(c, r, e.networkID, e.mac, e.ip) <==> Contests(c, r, e.networkID, e.mac, e.ip) {
      OverlapsIff(c, r, e.networkID, e.mac, e.ip);
    }
  }

  lemma TouchByRoute(c: ImportConfig, R: set<Decoded>, content: Content, r: Decoded)
    requires NormalForm(c, R, content)
    ensures TouchesEndpoint(c, r, content.endpoints) <==> ContestsRoute(c, r, Valids(c, R))
  {
    var V := Valids(c, R);
    TouchesIff(c, r, content.endpoints);
    if e :| e in content.endpoints && Contests(c, r, e.networkID, e.mac, e.ip) {
      assert NormalEndpoint(c, V, e);
      if e.mac == r.mac {
        var v := e.routes[0];
        assert v in e.routes && v in V && Contests(c, r, v.networkID, v.route.mac, v.route.ip);
      } else {
        var v :| v in V && MacSlot(v) == (e.networkID, e.mac) && v.route.ip == e.ip;
        assert Contests(c, r, v.networkID, v.route.mac, v.route.ip);
      }
    }
    if v :| v in V && Contests(c, r, v.networkID, v.route.mac, v.route.ip) {
      assert Covered(content.endpoints, (v.networkID, v.route.mac));
      var e :| e in content.endpoints && (e.networkID, e.mac) == (v.networkID, v.route.mac);
      assert NormalEndpoint(c, V, e) && MacSlot(v) == (e.networkID, e.mac);
      assert Contests(c, r, e.networkID, e.mac, e.ip);
    }
  }

  lemma ClashIsQuarantine(c: ImportConfig, R: set<Decoded>, q: seq<Decoded>, content: Content, confirmed: seq<Endpoint>)
    requires NormalForm(c, R, content) && TracksRejects(c, q, R)
    ensures Clashes(c, q, content.endpoints, confirmed) <==> Quarantined(c, R, confirmed)
  {
    forall r ensures TouchesEndpoint(c, r, content.endpoints) <==> ContestsRoute(c, r, Valids(c, R)) {
      TouchByRoute(c, R, content, r);
    }
    forall r ensures TouchesEndpoint(c, r, confirmed) <==> exists e :: e in confirmed && Contests(c, r, e.networkID, e.mac, e.ip) {
      TouchesIff(c, r, confirmed);
    }
  }

  /** A complete reading is accepted exactly when it is readable, each network MAC has one next
      hop and at most one IP, each network IP has one MAC, and no rejected route overlaps a
      validated or confirmed endpoint. What is accepted is the normalised snapshot. A reading refused
      only for such an overlap still reports every rejected route, and one that ends at a path that does
      not decode reports that path. */
  method Read(c: ImportConfig, paths: seq<Raw>, confirmed: seq<Endpoint>) returns (o: Reading, issues: seq<Issue>)
    requires ValidConfig(c) && HashInjective(c.parsers)
    ensures o.Observed? <==> Acceptable(c, paths, confirmed)
    ensures o.Observed? ==> NormalForm(c, Firsts(paths), o.content) && issues == o.content.issues
    ensures o.Uncertain? ==> Reports(c, paths, issues)
  {
    var s, stop := ScanPaths(c, paths);
    if s.None? {
      return Uncertain, if paths[stop].Undecodable? then [Issue(paths[stop].pathKey, Undecoded(paths[stop].error))] else [];
    }
    var content := Finish(c, s.value);
    EndpointsNormal(c, s.value.bindings, Valids(c, Firsts(paths)));
    IssuesNormal(c, s.value.quarantined, Firsts(paths));
    ClashIsQuarantine(c, Firsts(paths), s.value.quarantined, content, confirmed);
    if Clashes(c, s.value.quarantined, content.endpoints, confirmed) {
      IssuesComplete(c, s.value.quarantined, Firsts(paths));
      return Uncertain, Issues(c, s.value.quarantined);
    }
    return Observed(content), content.issues;
  }

  /** What a refused reading reports: the rejected routes once everything could be read, otherwise only
      the first path that stops the reading, if it does not decode. */
  ghost predicate Reports(c: ImportConfig, paths: seq<Raw>, issues: seq<Issue>)
  {
    if Scans(c, paths)
    then forall i :: i in issues <==> i in IssueSet(c, Firsts(paths))
    else exists k :: StopsAt(c, paths, k)
           && issues == if paths[k].Undecodable? then [Issue(paths[k].pathKey, Undecoded(paths[k].error))] else []
  }

  // ---------------------------------------------------------------- order independence

  ghost predicate IdentityDetermines(paths: seq<Raw>)
  {
    forall p, q | p in paths && q in paths && IsRemote(p) && IsRemote(q)
                  && p.value.sourceKey == q.value.sourceKey && p.value.attributeKey == q.value.attributeKey :: p == q
  }

  lemma FirstsAreAll(paths: seq<Raw>)
    requires Readable(paths) && IdentityDetermines(paths)
    ensures forall r :: r in Firsts(paths) <==> Decodes(r) in paths && r.kind == Remote
  {
    FirstsSound(paths);
    forall r | Decodes(r) in paths && r.kind == Remote ensures r in Firsts(paths) {
      FirstsComplete(paths, r);
      var x :| x in Firsts(paths) && x.sourceKey == r.sourceKey;
      assert Decodes(x) in paths && IsRemote(Decodes(x)) && IsRemote(Decodes(r));
    }
  }

  /** Any reordering or repetition of the same paths is uncertain alike, or gives the same
      normalised snapshot. */
  lemma OrderIndependent(c: ImportConfig, p: seq<Raw>, q: seq<Raw>, confirmed: seq<Endpoint>, a: Reading, b: Reading)
    requires IdentityDetermines(p) && forall x :: x in p <==> x in q
    requires a.Observed? <==> Acceptable(c, p, confirmed)
    requires a.Observed? ==> NormalForm(c, Firsts(p), a.content)
    requires b.Observed? <==> Acceptable(c, q, confirmed)
    requires b.Observed? ==> NormalForm(c, Firsts(q), b.content)
    ensures a == b
  {
    assert Readable(p) <==> Readable(q);
    if Readable(p) {
      FirstsAreAll(p);
      FirstsAreAll(q);
      assert Firsts(p) == Firsts(q);
      if a.Observed? { NormalFormUnique(c, Firsts(p), a.content, b.content); }
    }
  }

  // ---------------------------------------------------------------- confirmation

  datatype Snapshot = Snapshot(authoritative: bool, generation: nat, content: Content)

  datatype Event = Poll(reading: Reading) | Rebind

  datatype ImporterState = ImporterState(confirmed: Snapshot, pending: Option<Content>)

  const EMPTY := Content([], [])
  const EMPTY_SNAPSHOT := Snapshot(false, 0, EMPTY)

  /** Does this event publish an authoritative snapshot? */
  predicate Publishes(s: ImporterState, e: Event)
  {
    e.Poll? && e.reading.Observed? && s.pending == Some(e.reading.content)
  }

  function Next(s: ImporterState, e: Event): ImporterState
  {
    match e
    case Rebind => ImporterState(s.confirmed.(authoritative := false), None)
    case Poll(Uncertain) => s.(pending := None)
    case Poll(Observed(content)) =>
      if s.pending != Some(content) then s.(pending := Some(content))
      else
        var generation := if s.confirmed.content == content then s.confirmed.generation else s.confirmed.generation + 1;
        s.(confirmed := Snapshot(true, generation, content))
  }

  function Run(s: ImporterState, events: seq<Event>): ImporterState
  {
    if events == [] then s else Next(Run(s, events[..|events| - 1]), events[|events| - 1])
  }

  /** From a state with nothing pending, an event publishes exactly when it is a complete, conflict-free poll
      that repeats the event right before it; what is published is its content. */
  lemma {:induction false} PublishIffTwoEqualReadings(s: ImporterState, events: seq<Event>, e: Event)
    requires s.pending.None?
    ensures Publishes(Run(s, events), e)
      <==> |events| > 0 && events[|events| - 1] == e && e.Poll? && e.reading.Observed?
    ensures |events| > 0 && events[|events| - 1] == e && e.Poll? && e.reading.Observed? ==>
      var now := Run(s, events + [e]).confirmed; now.authoritative && now.content == e.reading.content
  {
    assert (events + [e])[..|events|] == events;
    if events != [] {
      var k := |events| - 1;
      assert Run(s, events) == Next(Run(s, events[..k]), events[k]);
    }
  }

  /** Generations never decrease, and rise by one exactly when the confirmed content changes. */
  lemma {:induction false} GenerationsCountChanges(s: ImporterState, events: seq<Event>, i: nat, j: nat)
    requires i <= j <= |events|
    ensures var a, b := Run(s, events[..i]).confirmed, Run(s, events[..j]).confirmed;
      && a.generation <= b.generation
      && (a.generation == b.generation ==> a.content == b.content)
      && (j == i + 1 ==> b.generation == a.generation + if a.content == b.content then 0 else 1)
    decreases j
  {
    if i < j {
      GenerationsCountChanges(s, events, i, j - 1);
      assert events[..j][..j - 1] == events[..j - 1];
    }
  }

  /** The reader after a restart: the recovered snapshot is known but not authoritative. */
  function Restored(snapshot: Snapshot): ImporterState
  {
    ImporterState(snapshot.(authoritative := false), None)
  }

  /** A recovered snapshot never substitutes for fresh observations: whatever is authoritative later
      was read twice in a row since the restart. Its generation continues the recovered one, which
      still names the recovered content. */
  lemma {:induction false} RestoredNeedsTwoReadings(snapshot: Snapshot, events: seq<Event>)
    ensures var now := Run(Restored(snapshot), events).confirmed;
      && snapshot.generation <= now.generation && (now.generation == snapshot.generation ==> now.content == snapshot.content)
      && (now.authoritative ==> exists i ::
            0 < i < |events| && events[i - 1] == events[i] == Poll(Observed(now.content)))
  {
    if events != [] {
      var init, e := events[..|events| - 1], events[|events| - 1];
      RestoredNeedsTwoReadings(snapshot, init);
      var before, now := Run(Restored(snapshot), init), Run(Restored(snapshot), events);
      if Publishes(before, e) {
        PublishIffTwoEqualReadings(Restored(snapshot), init, e);
        assert events[|events| - 2] == events[|events| - 1];
      } else if now.confirmed.authoritative {
        var i :| 0 < i < |init| && init[i - 1] == init[i] == Poll(Observed(before.confirmed.content));
        assert events[i - 1] == init[i - 1] && events[i] == init[i];
      }
    }
  }

  /** Generation 0 means that nothing but the empty content was ever confirmed. */
  lemma {:induction false} GenerationZeroIsEmpty(events: seq<Event>)
    ensures var s := Run(ImporterState(Snapshot(false, 0, EMPTY), None), events);
      s.confirmed.generation == 0 ==> s.confirmed.content == EMPTY
  {
    if events != [] { GenerationZeroIsEmpty(events[..|events| - 1]); }
  }

  class ReadOnlyImporter {
    const config: ImportConfig
    var confirmed: Snapshot
    var pending: Option<Content>

    ghost predicate Valid()
    {
      ValidConfig(config) && HashInjective(config.parsers)
    }

    function State(): ImporterState
      reads this
    {
      ImporterState(confirmed, pending)
    }

    constructor (config: ImportConfig)
      requires ValidConfig(config) && HashInjective(config.parsers)
      ensures Valid() && this.config == config && State() == ImporterState(Snapshot(false, 0, EMPTY), None)
    {
      this.config := config;
      confirmed, pending := Snapshot(false, 0, EMPTY), None;
    }

    /** Restart with a recovered snapshot: no single poll can publish anything. */
    method Restore(snapshot: Snapshot)
      modifies this
      ensures State() == Restored(snapshot) && forall e :: !Publishes(State(), e)
    {
      confirmed, pending := snapshot.(authoritative := false), None;
    }

    method RebindSource()
      modifies this
      ensures State() == Next(old(State()), Rebind)
    {
      pending, confirmed := None, confirmed.(authoritative := false);
    }

    /** `raw` is None when the RIB was unavailable, incomplete or the poll cancelled. */
    method PollOnce(raw: Option<seq<Raw>>) returns (result: Snapshot, ghost reading: Reading)
      requires Valid()
      modifies this
      ensures Valid() && State() == Next(old(State()), Poll(reading))
      ensures reading.Observed? <==> raw.Some? && Acceptable(config, raw.value, old(confirmed).content.endpoints)
      ensures reading.Observed? ==> NormalForm(config, Firsts(raw.value), reading.content)
      ensures result.authoritative <==> Publishes(old(State()), Poll(reading))
      ensures result.authoritative ==> result == confirmed
      ensures !result.authoritative ==> result.generation == confirmed.generation && confirmed == old(confirmed)
                                        && result.content.endpoints == confirmed.content.endpoints
      ensures raw.None? ==> result.content == confirmed.content
      ensures !result.authoritative && reading.Observed? ==> result.content.issues == reading.content.issues
      ensures raw.Some? && reading.Uncertain? ==>
        var had := confirmed.content.issues;
        had <= result.content.issues && Reports(config, raw.value, result.content.issues[|had|..])
    {
      var stale := confirmed.(authoritative := false);
      if raw.None? {
        pending := None;
        return stale, Uncertain;
      }
      var o, issues := Read(config, raw.value, confirmed.content.endpoints);
      reading := o;
      if o.Uncertain? {
        pending := None;
        assert (confirmed.content.issues + issues)[|confirmed.content.issues|..] == issues;
        return stale.(content := stale.content.(issues := confirmed.content.issues + issues)), o;
      }
      if pending != Some(o.content) {
        pending := Some(o.content);
        return stale.(content := stale.content.(issues := o.content.issues)), o;
      }
      var generation := confirmed.generation;
      if confirmed.content != o.content { generation := generation + 1; }
      confirmed := Snapshot(true, generation, o.content);
      result := confirmed;
    }
  }
}

/** Accumulating one reading into endpoints, MAC bindings and IP bindings. */
module RemoteBindings {
  import opened Basics
  import opened RemoteRoutes

  datatype Endpoint = Endpoint(key: string, networkID: string, vni: nat, mac: string, ip: string, vtep: string,
                               validationState: string, routes: seq<Validated>)

  datatype Bindings = Bindings(endpoints: map<string, Endpoint>, macs: map<Slot, string>, ips: map<Slot, string>)

  predicate Linked(b: Bindings)
  {
    forall slot | slot in b.macs :: b.macs[slot] in b.endpoints
  }

  function Attach(b: Bindings, key: string, v: Validated): Option<Bindings>
    requires key in b.endpoints
  {
    if v.route.ip != "" && IPSlot(v) in b.ips && b.ips[IPSlot(v)] != key then None
    else
      var ep := b.endpoints[key];
      Some(b.(ips := if v.route.ip == "" then b.ips else b.ips[IPSlot(v) := key],
              endpoints := b.endpoints[key := ep.(routes := ep.routes + [v])]))
  }

  function Upgraded(b: Bindings, slot: Slot, nextKey: string, ip: string): Bindings
    requires slot in b.macs && b.macs[slot] in b.endpoints
  {
    var key := b.macs[slot];
    b.(endpoints := (b.endpoints - {key})[nextKey := b.endpoints[key].(key := nextKey, ip := ip)],
       macs := b.macs[slot := nextKey])
  }

  function Fresh(v: Validated, key: string): Endpoint
  {
    Endpoint(key, v.networkID, v.vni, v.route.mac, v.route.ip, v.route.nextHop, "validated", [])
  }

  /** Record one accepted route; None when it conflicts with what is already bound. */
  function Bind(c: ImportConfig, b: Bindings, v: Validated): Option<Bindings>
    requires Linked(b)
  {
    var slot, r := MacSlot(v), v.route;
    if slot in b.macs then
      var key := b.macs[slot];
      var ep := b.endpoints[key];
      if ep.vtep != r.nextHop || (ep.ip != "" && r.ip != "" && ep.ip != r.ip) then None
      else if ep.ip == "" && r.ip != "" then
        if IPSlot(v) in b.ips && b.ips[IPSlot(v)] != key then None
        else
          var nextKey := c.parsers.hash(v.networkID, r.mac, r.ip);
          Attach(Upgraded(b, slot, nextKey, r.ip), nextKey, v)
      else Attach(b, key, v)
    else
      var key := c.parsers.hash(v.networkID, r.mac, r.ip);
      if r.ip != "" && IPSlot(v) in b.ips && b.ips[IPSlot(v)] != key then None
      else Attach(b.(endpoints := b.endpoints[key := Fresh(v, key)], macs := b.macs[slot := key]), key, v)
  }

  ghost predicate AllAccepted(c: ImportConfig, V: set<Validated>)
  {
    forall v | v in V :: ValidateRoute(c, v.route) == Accepted(v)
  }

  /** What the endpoint of one network MAC must be, given the accepted routes. */
  ghost predicate Describes(c: ImportConfig, V: set<Validated>, slot: Slot, e: Endpoint)
  {
    && e.networkID == slot.0 && e.mac == slot.1 && e.validationState == "validated"
    && e.key == c.parsers.hash(slot.0, slot.1, e.ip)
    && (forall v | v in V && MacSlot(v) == slot ::
          v.route.nextHop == e.vtep && v.vni == e.vni && (v.route.ip == "" || v.route.ip == e.ip))
    && (e.ip != "" ==> exists v :: v in V && MacSlot(v) == slot && v.route.ip == e.ip)
  }

  ghost predicate Evidence(V: set<Validated>, slot: Slot, routes: seq<Validated>)
  {
    && routes != [] && (forall v :: v in routes <==> v in V && MacSlot(v) == slot)
    && (forall i, j | 0 <= i < j < |routes| :: routes[i].route.sourceKey != routes[j].route.sourceKey)
  }

  ghost predicate SlotBound(c: ImportConfig, b: Bindings, V: set<Validated>, slot: Slot)
  {
    && slot in b.macs && b.macs[slot] in b.endpoints && b.endpoints[b.macs[slot]].key == b.macs[slot]
    && Describes(c, V, slot, b.endpoints[b.macs[slot]]) && Evidence(V, slot, b.endpoints[b.macs[slot]].routes)
  }

  predicate Owner(b: Bindings, key: string)
    requires key in b.endpoints
  {
    var slot := (b.endpoints[key].networkID, b.endpoints[key].mac);
    slot in b.macs && b.macs[slot] == key
  }

  ghost predicate BoundMACs(c: ImportConfig, b: Bindings, V: set<Validated>)
  {
    && (forall v | v in V :: MacSlot(v) in b.macs)
    && (forall slot | slot in b.macs :: SlotBound(c, b, V, slot))
    && (forall key | key in b.endpoints :: Owner(b, key))
  }

  ghost predicate BoundIPs(b: Bindings, V: set<Validated>)
  {
    && (forall v | v in V && v.route.ip != "" :: IPSlot(v) in b.ips)
    && (forall slot | slot in b.ips ::
          b.ips[slot] in b.endpoints && b.endpoints[b.ips[slot]].networkID == slot.0
          && b.endpoints[b.ips[slot]].ip == slot.1 && slot.1 != "")
  }

  ghost predicate Represents(c: ImportConfig, b: Bindings, V: set<Validated>)
  {
    Linked(b) && BoundMACs(c, b, V) && BoundIPs(b, V)
  }

  ghost predicate Extendable(c: ImportConfig, b: Bindings, V: set<Validated>, v: Validated)
  {
    && ValidConfig(c) && HashInjective(c.parsers) && AllAccepted(c, V + {v})
    && Represents(c, b, V) && Consistent(V) && (forall x | x in V :: x.route.sourceKey != v.route.sourceKey)
  }

  lemma SameVNI(c: ImportConfig, V: set<Validated>, a: Validated, b: Validated)
    requires ValidConfig(c) && AllAccepted(c, V) && a in V && b in V && a.networkID == b.networkID
    ensures a.vni == b.vni
  {
    SameNetworkSameVNI(c, a.route, b.route);
  }

  lemma EvidenceAppends(V: set<Validated>, slot: Slot, routes: seq<Validated>, v: Validated)
    requires Evidence(V, slot, routes) && MacSlot(v) == slot && forall x | x in V :: x.route.sourceKey != v.route.sourceKey
    ensures Evidence(V + {v}, slot, routes + [v])
  {
    var all := routes + [v];
    forall i, j | 0 <= i < j < |all| ensures all[i].route.sourceKey != all[j].route.sourceKey {
      if j == |routes| { assert all[i] in routes; }
    }
  }

  lemma EvidenceFrame(V: set<Validated>, slot: Slot, routes: seq<Validated>, v: Validated)
    requires Evidence(V, slot, routes) && MacSlot(v) != slot
    ensures Evidence(V + {v}, slot, routes)
  {
  }

  lemma EvidenceFirst(V: set<Validated>, v: Validated)
    requires forall x | x in V :: MacSlot(x) != MacSlot(v)
    ensures Evidence(V + {v}, MacSlot(v), [v])
  {
  }

  /** The endpoint holding an IP identifies the MAC of every route with that IP. */
  lemma IPHolder(c: ImportConfig, b: Bindings, V: set<Validated>, slot: Slot) returns (w: Validated)
    requires Represents(c, b, V) && slot in b.ips
    ensures w in V && IPSlot(w) == slot && w.route.ip != ""
    ensures MacSlot(w) in b.macs && b.macs[MacSlot(w)] == b.ips[slot]
  {
    var e := b.endpoints[b.ips[slot]];
    var m := (e.networkID, e.mac);
    assert Owner(b, b.ips[slot]) && SlotBound(c, b, V, m);
    w :| w in V && MacSlot(w) == m && w.route.ip == e.ip;
  }

  /** A route of a bound MAC with another next hop or another IP is not compatible with what is bound. */
  lemma BoundMACRejects(c: ImportConfig, b: Bindings, V: set<Validated>, v: Validated) returns (w: Validated)
    requires Represents(c, b, V) && MacSlot(v) in b.macs
    requires
      var e := b.endpoints[b.macs[MacSlot(v)]];
      e.vtep != v.route.nextHop || (e.ip != "" && v.route.ip != "" && e.ip != v.route.ip)
    ensures w in V && !Compatible(w, v)
  {
    var slot := MacSlot(v);
    assert SlotBound(c, b, V, slot);
    var e := b.endpoints[b.macs[slot]];
    if e.vtep != v.route.nextHop {
      w := e.routes[0];
      assert w in e.routes;
    } else {
      w :| w in V && MacSlot(w) == slot && w.route.ip == e.ip;
    }
  }

  lemma BindRejects(c: ImportConfig, b: Bindings, V: set<Validated>, v: Validated)
    requires Extendable(c, b, V, v) && Bind(c, b, v).None?
    ensures !Consistent(V + {v})
  {
    var slot := MacSlot(v);
    assert v in V + {v};
    var w;
    if slot in b.macs { assert SlotBound(c, b, V, slot); }
    if slot in b.macs && (b.endpoints[b.macs[slot]].vtep != v.route.nextHop
                          || (b.endpoints[b.macs[slot]].ip != "" && v.route.ip != ""
                              && b.endpoints[b.macs[slot]].ip != v.route.ip)) {
      w := BoundMACRejects(c, b, V, v);
    } else {
      w := IPHolder(c, b, V, IPSlot(v));
    }
    assert !Compatible(w, v);
  }

  lemma MACCompatible(c: ImportConfig, b: Bindings, V: set<Validated>, v: Validated, a: Validated)
    requires Represents(c, b, V) && Bind(c, b, v).Some? && a in V && MacSlot(a) == MacSlot(v)
    ensures a.route.nextHop == v.route.nextHop && (a.route.ip == "" || v.route.ip == "" || a.route.ip == v.route.ip)
  {
    assert SlotBound(c, b, V, MacSlot(v));
  }

  lemma IPCompatible(c: ImportConfig, b: Bindings, V: set<Validated>, v: Validated, a: Validated)
    requires HashInjective(c.parsers) && Consistent(V)
    requires Represents(c, b, V) && Bind(c, b, v).Some? && a in V && IPSlot(a) == IPSlot(v) && v.route.ip != ""
    ensures a.route.mac == v.route.mac
  {
    var w := IPHolder(c, b, V, IPSlot(v));
    assert Compatible(w, a);
    assert SlotBound(c, b, V, MacSlot(w));
    if MacSlot(v) in b.macs { assert SlotBound(c, b, V, MacSlot(v)); }
  }

  lemma BindCompatible(c: ImportConfig, b: Bindings, V: set<Validated>, v: Validated, a: Validated)
    requires HashInjective(c.parsers) && Consistent(V) && Represents(c, b, V) && Bind(c, b, v).Some? && a in V
    ensures Compatible(a, v) && Compatible(v, a)
  {
    if MacSlot(a) == MacSlot(v) { MACCompatible(c, b, V, v, a); }
    if IPSlot(a) == IPSlot(v) && v.route.ip != "" { IPCompatible(c, b, V, v, a); }
  }

  lemma BindConsistent(c: ImportConfig, b: Bindings, V: set<Validated>, v: Validated)
    requires Extendable(c, b, V, v) && Bind(c, b, v).Some?
    ensures Consistent(V + {v})
  {
    forall x, y | x in V + {v} && y in V + {v} ensures Compatible(x, y) {
      if x in V { BindCompatible(c, b, V, v, x); }
      if y in V { BindCompatible(c, b, V, v, y); }
    }
  }

  lemma DescribesFrame(c: ImportConfig, V: set<Validated>, slot: Slot, e: Endpoint, v: Validated)
    requires Describes(c, V, slot, e) && MacSlot(v) != slot
    ensures Describes(c, V + {v}, slot, e)
  {
    if e.ip != "" {
      var w :| w in V && MacSlot(w) == slot && w.route.ip == e.ip;
      assert w in V + {v};
    }
  }

  lemma DescribesExtends(c: ImportConfig, V: set<Validated>, slot: Slot, e: Endpoint, v: Validated)
    requires Describes(c, V, slot, e) && MacSlot(v) == slot
    requires e.vtep == v.route.nextHop && e.vni == v.vni && (v.route.ip == "" || v.route.ip == e.ip)
    ensures Describes(c, V + {v}, slot, e)
  {
    if e.ip != "" {
      var w :| w in V && MacSlot(w) == slot && w.route.ip == e.ip;
      assert w in V + {v};
    }
  }

  function Replaced(b: Bindings, slot: Slot): set<string>
  {
    if slot in b.macs then {b.macs[slot]} else {}
  }

  function Rebound(b: Bindings, v: Validated, e: Endpoint): Bindings
  {
    Bindings((b.endpoints - Replaced(b, MacSlot(v)))[e.key := e], b.macs[MacSlot(v) := e.key],
             if v.route.ip == "" then b.ips else b.ips[IPSlot(v) := e.key])
  }

  lemma SlotFrame(c: ImportConfig, b: Bindings, V: set<Validated>, v: Validated, e: Endpoint, slot: Slot)
    requires SlotBound(c, b, V, slot) && slot != MacSlot(v)
    requires b.macs[slot] != e.key && b.macs[slot] !in Replaced(b, MacSlot(v))
    ensures SlotBound(c, Rebound(b, v, e), V + {v}, slot)
  {
    DescribesFrame(c, V, slot, b.endpoints[b.macs[slot]], v);
    EvidenceFrame(V, slot, b.endpoints[b.macs[slot]].routes, v);
  }

  lemma SlotsDiffer(c: ImportConfig, b: Bindings, V: set<Validated>, s: Slot, t: Slot)
    requires SlotBound(c, b, V, s) && SlotBound(c, b, V, t) && s != t
    ensures b.macs[s] != b.macs[t]
  {
  }

  lemma SlotsAfter(c: ImportConfig, b: Bindings, V: set<Validated>, v: Validated, e: Endpoint, slot: Slot)
    requires BoundMACs(c, b, V) && (e.key in b.endpoints ==> e.key in Replaced(b, MacSlot(v)))
    requires Describes(c, V + {v}, MacSlot(v), e) && Evidence(V + {v}, MacSlot(v), e.routes)
    requires slot in b.macs || slot == MacSlot(v)
    ensures SlotBound(c, Rebound(b, v, e), V + {v}, slot)
  {
    if slot != MacSlot(v) {
      assert SlotBound(c, b, V, slot);
      if MacSlot(v) in b.macs { SlotsDiffer(c, b, V, slot, MacSlot(v)); }
      SlotFrame(c, b, V, v, e, slot);
    }
  }

  lemma OwnersAfter(b: Bindings, v: Validated, e: Endpoint, key: string)
    requires forall k | k in b.endpoints :: Owner(b, k)
    requires e.networkID == v.networkID && e.mac == v.route.mac && key in Rebound(b, v, e).endpoints
    ensures Owner(Rebound(b, v, e), key)
  {
    if key != e.key { assert Owner(b, key); }
  }

  /** Everything outside the MAC being bound keeps its meaning. */
  lemma MACsAfter(c: ImportConfig, b: Bindings, V: set<Validated>, v: Validated, e: Endpoint)
    requires BoundMACs(c, b, V) && (e.key in b.endpoints ==> e.key in Replaced(b, MacSlot(v)))
    requires Describes(c, V + {v}, MacSlot(v), e) && Evidence(V + {v}, MacSlot(v), e.routes)
    ensures BoundMACs(c, Rebound(b, v, e), V + {v}) && Linked(Rebound(b, v, e))
  {
    var b' := Rebound(b, v, e);
    forall slot | slot in b'.macs ensures SlotBound(c, b', V + {v}, slot) { SlotsAfter(c, b, V, v, e, slot); }
    forall key | key in b'.endpoints ensures Owner(b', key) { OwnersAfter(b, v, e, key); }
  }

  /** The endpoint may replace the one of its MAC: only that one has its key, and it gives up no IP. */
  ghost predicate MayReplace(b: Bindings, slot: Slot, e: Endpoint)
  {
    && (e.key in b.endpoints ==>
          slot in b.macs && b.macs[slot] == e.key && b.endpoints[e.key].networkID == e.networkID && b.endpoints[e.key].ip == e.ip)
    && (slot in b.macs && b.macs[slot] != e.key ==> b.macs[slot] in b.endpoints && b.endpoints[b.macs[slot]].ip == "")
  }

  lemma IPsAfter(b: Bindings, V: set<Validated>, v: Validated, e: Endpoint)
    requires BoundIPs(b, V) && MayReplace(b, MacSlot(v), e)
    requires e.networkID == v.networkID && (v.route.ip == "" || e.ip == v.route.ip)
    ensures BoundIPs(Rebound(b, v, e), V + {v})
  {
  }

  /** Binding a route to an endpoint that describes its MAC keeps everything represented. */
  lemma Rebinds(c: ImportConfig, b: Bindings, V: set<Validated>, v: Validated, e: Endpoint)
    requires Represents(c, b, V) && MayReplace(b, MacSlot(v), e) && (v.route.ip == "" || e.ip == v.route.ip)
    requires Describes(c, V + {v}, MacSlot(v), e) && Evidence(V + {v}, MacSlot(v), e.routes)
    ensures Represents(c, Rebound(b, v, e), V + {v})
  {
    MACsAfter(c, b, V, v, e);
    IPsAfter(b, V, v, e);
  }

  lemma BindExisting(c: ImportConfig, b: Bindings, V: set<Validated>, v: Validated)
    requires ValidConfig(c) && AllAccepted(c, V + {v}) && Represents(c, b, V)
    requires forall x | x in V :: x.route.sourceKey != v.route.sourceKey
    requires Bind(c, b, v).Some? && MacSlot(v) in b.macs
    requires var e := b.endpoints[b.macs[MacSlot(v)]]; e.ip != "" || v.route.ip == ""
    ensures Represents(c, Bind(c, b, v).value, V + {v})
  {
    var slot := MacSlot(v);
    assert SlotBound(c, b, V, slot);
    var e := b.endpoints[b.macs[slot]];
    var e' := e.(routes := e.routes + [v]);
    ExistingDescribes(c, V, slot, e, v);
    ExistingShape(c, b, v);
    Rebinds(c, b, V, v, e');
  }

  lemma ExistingDescribes(c: ImportConfig, V: set<Validated>, slot: Slot, e: Endpoint, v: Validated)
    requires ValidConfig(c) && AllAccepted(c, V + {v}) && forall x | x in V :: x.route.sourceKey != v.route.sourceKey
    requires Describes(c, V, slot, e) && Evidence(V, slot, e.routes) && MacSlot(v) == slot
    requires e.vtep == v.route.nextHop && (v.route.ip == "" || e.ip == v.route.ip)
    ensures Describes(c, V + {v}, slot, e.(routes := e.routes + [v]))
    ensures Evidence(V + {v}, slot, e.routes + [v])
  {
    assert e.routes[0] in V && MacSlot(e.routes[0]) == slot;
    SameVNI(c, V + {v}, e.routes[0], v);
    DescribesExtends(c, V, slot, e, v);
    EvidenceAppends(V, slot, e.routes, v);
  }

  lemma ExistingShape(c: ImportConfig, b: Bindings, v: Validated)
    requires Linked(b) && Bind(c, b, v).Some? && MacSlot(v) in b.macs
    requires var e := b.endpoints[b.macs[MacSlot(v)]]; e.key == b.macs[MacSlot(v)] && (e.ip != "" || v.route.ip == "")
    ensures var e := b.endpoints[b.macs[MacSlot(v)]];
      Bind(c, b, v).value == Rebound(b, v, e.(routes := e.routes + [v]))
  {
    var key := b.macs[MacSlot(v)];
    var e := b.endpoints[key];
    assert b.endpoints[key := e.(routes := e.routes + [v])]
        == (b.endpoints - {key})[key := e.(routes := e.routes + [v])];
    assert b.macs == b.macs[MacSlot(v) := key];
  }

  lemma UpgradeDescribes(c: ImportConfig, V: set<Validated>, slot: Slot, e: Endpoint, v: Validated, e': Endpoint)
    requires ValidConfig(c) && AllAccepted(c, V + {v}) && forall x | x in V :: x.route.sourceKey != v.route.sourceKey
    requires Describes(c, V, slot, e) && Evidence(V, slot, e.routes) && MacSlot(v) == slot
    requires e.ip == "" && v.route.ip != "" && e.vtep == v.route.nextHop
    requires e' == e.(key := c.parsers.hash(slot.0, slot.1, v.route.ip), ip := v.route.ip, routes := e.routes + [v])
    ensures Describes(c, V + {v}, slot, e') && Evidence(V + {v}, slot, e'.routes)
  {
    assert e.routes[0] in V && MacSlot(e.routes[0]) == slot;
    SameVNI(c, V + {v}, e.routes[0], v);
    EvidenceAppends(V, slot, e.routes, v);
    assert v in V + {v};
  }

  lemma UpgradeShape(c: ImportConfig, b: Bindings, v: Validated, e': Endpoint)
    requires Linked(b) && Bind(c, b, v).Some? && MacSlot(v) in b.macs
    requires var e := b.endpoints[b.macs[MacSlot(v)]];
      && e.ip == "" && v.route.ip != ""
      && e' == e.(key := c.parsers.hash(v.networkID, v.route.mac, v.route.ip), ip := v.route.ip, routes := e.routes + [v])
    ensures Bind(c, b, v).value == Rebound(b, v, e')
  {
    var up := Upgraded(b, MacSlot(v), e'.key, v.route.ip);
    assert up.endpoints[e'.key := e'] == (b.endpoints - {b.macs[MacSlot(v)]})[e'.key := e'];
  }

  lemma BindUpgrade(c: ImportConfig, b: Bindings, V: set<Validated>, v: Validated)
    requires ValidConfig(c) && AllAccepted(c, V + {v}) && Represents(c, b, V) && HashInjective(c.parsers)
    requires forall x | x in V :: x.route.sourceKey != v.route.sourceKey
    requires Bind(c, b, v).Some? && MacSlot(v) in b.macs
    requires var e := b.endpoints[b.macs[MacSlot(v)]]; e.ip == "" && v.route.ip != ""
    ensures Represents(c, Bind(c, b, v).value, V + {v})
  {
    var slot := MacSlot(v);
    assert SlotBound(c, b, V, slot);
    var e := b.endpoints[b.macs[slot]];
    var key := c.parsers.hash(v.networkID, v.route.mac, v.route.ip);
    var e' := e.(key := key, ip := v.route.ip, routes := e.routes + [v]);
    UpgradeDescribes(c, V, slot, e, v, e');
    UpgradeShape(c, b, v, e');
    KeyIsNew(c, b, V, slot, key, v.route.ip);
    Rebinds(c, b, V, v, e');
  }

  /** The key of a MAC with an IP cannot already be taken by another MAC. */
  lemma KeyIsNew(c: ImportConfig, b: Bindings, V: set<Validated>, slot: Slot, key: string, ip: string)
    requires HashInjective(c.parsers) && BoundMACs(c, b, V) && key == c.parsers.hash(slot.0, slot.1, ip)
    ensures key in b.endpoints ==> slot in b.macs && b.macs[slot] == key
  {
    if key in b.endpoints {
      var m := (b.endpoints[key].networkID, b.endpoints[key].mac);
      assert Owner(b, key) && SlotBound(c, b, V, m);
    }
  }

  lemma BindFirst(c: ImportConfig, b: Bindings, V: set<Validated>, v: Validated)
    requires Represents(c, b, V) && HashInjective(c.parsers)
    requires Bind(c, b, v).Some? && MacSlot(v) !in b.macs
    ensures Represents(c, Bind(c, b, v).value, V + {v})
  {
    var slot, key := MacSlot(v), c.parsers.hash(v.networkID, v.route.mac, v.route.ip);
    var e := Fresh(v, key).(routes := [v]);
    KeyIsNew(c, b, V, slot, key, v.route.ip);
    FirstDescribes(c, V, v);
    FirstShape(c, b, v);
    Rebinds(c, b, V, v, e);
  }

  lemma FirstDescribes(c: ImportConfig, V: set<Validated>, v: Validated)
    requires forall x | x in V :: MacSlot(x) != MacSlot(v)
    ensures
      var e := Fresh(v, c.parsers.hash(v.networkID, v.route.mac, v.route.ip)).(routes := [v]);
      Describes(c, V + {v}, MacSlot(v), e) && Evidence(V + {v}, MacSlot(v), e.routes)
  {
    EvidenceFirst(V, v);
    assert v in V + {v};
  }

  lemma FirstShape(c: ImportConfig, b: Bindings, v: Validated)
    requires Linked(b) && Bind(c, b, v).Some? && MacSlot(v) !in b.macs
    ensures
      var e := Fresh(v, c.parsers.hash(v.networkID, v.route.mac, v.route.ip)).(routes := [v]);
      Bind(c, b, v).value == Rebound(b, v, e)
  {
    var key := c.parsers.hash(v.networkID, v.route.mac, v.route.ip);
    assert Fresh(v, key).routes + [v] == [v];
    assert b.endpoints - {} == b.endpoints;
  }

  /** Binding succeeds exactly while the accepted routes are consistent, and then represents them. */
  lemma BindCorrect(c: ImportConfig, b: Bindings, V: set<Validated>, v: Validated)
    requires Extendable(c, b, V, v)
    ensures Bind(c, b, v).Some? <==> Consistent(V + {v})
    ensures Bind(c, b, v).Some? ==> Represents(c, Bind(c, b, v).value, V + {v})
  {
    if Bind(c, b, v).None? {
      BindRejects(c, b, V, v);
    } else {
      BindConsistent(c, b, V, v);
      if MacSlot(v) !in b.macs {
        BindFirst(c, b, V, v);
      } else if b.endpoints[b.macs[MacSlot(v)]].ip == "" && v.route.ip != "" {
        BindUpgrade(c, b, V, v);
      } else {
        BindExisting(c, b, V, v);
      }
    }
  }

  // ---------------------------------------------------------------- evidence, checked again by the consumers

  /** One route of an endpoint, validated again under the current policy. */
  predicate Supports(c: ImportConfig, ep: Endpoint, v: Validated)
  {
    && ValidateRoute(c, v.route).Accepted?
    && ValidateRoute(c, v.route).v.networkID == ep.networkID == v.networkID
    && ValidateRoute(c, v.route).v.vni == ep.vni == v.vni
    && v.route.mac == ep.mac && (v.route.ip == ep.ip || v.route.ip == "") && v.route.nextHop == ep.vtep
    && v.route.sourceKey != ""
  }

  predicate Supported(c: ImportConfig, ep: Endpoint)
  {
    && (forall v | v in ep.routes :: Supports(c, ep, v))
    && (ep.ip == "" || exists v | v in ep.routes :: v.route.ip == ep.ip)
  }

  /** The network of the endpoint permits the route, which has the endpoint's MAC, next hop and, if any, IP. */
  ghost predicate Attests(c: ImportConfig, ep: Endpoint, v: Validated)
  {
    && (exists n :: n in c.networks && n.networkID == ep.networkID && n.vni == ep.vni && Permits(n, v.route))
    && Eligible(c, v.route) && v.networkID == ep.networkID && v.vni == ep.vni && v.route.sourceKey != ""
    && v.route.mac == ep.mac && v.route.nextHop == ep.vtep && (v.route.ip == "" || v.route.ip == ep.ip)
  }

  /** Every route of the endpoint attests it, and its IP, if any, is that of one of them. */
  ghost predicate Evidenced(c: ImportConfig, ep: Endpoint)
  {
    && (forall v | v in ep.routes :: Attests(c, ep, v))
    && (ep.ip != "" ==> exists v :: v in ep.routes && v.route.ip == ep.ip)
  }

  lemma SupportsIff(c: ImportConfig, ep: Endpoint, v: Validated)
    requires ValidConfig(c)
    ensures Supports(c, ep, v) <==> Attests(c, ep, v)
  {
    PolicyIff(c, v.route);
    if Supports(c, ep, v) {
      var n :| n in c.networks && Permits(n, v.route);
      assert n.networkID == ep.networkID && n.vni == ep.vni;
    }
  }

  lemma SupportedIff(c: ImportConfig, ep: Endpoint)
    requires ValidConfig(c)
    ensures Supported(c, ep) <==> Evidenced(c, ep)
  {
    forall v ensures Supports(c, ep, v) <==> Attests(c, ep, v) { SupportsIff(c, ep, v); }
  }
}

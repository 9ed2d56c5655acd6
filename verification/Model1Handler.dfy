/** The OVSDB-programmed handler: one provider network, at most one tunnel. */
module Model1Handler {
  import opened Basics
  import opened RemoteBindings
  import opened RemotePolling
  import opened Model1Tunnels

  /** How the databases answer one call: done; an error although it took effect; an error without effect. */
  datatype Answer = Works | Lost | Refused

  /** The databases behind the programmer. `oracle` gives the answer to every call in advance and is
      arbitrary, so what holds for every oracle holds for every behaviour. */
  class Programmer {
    const oracle: nat -> Answer
    var calls: nat
    var network: bool
    var installed: Tunnels

    constructor (oracle: nat -> Answer)
      ensures this.oracle == oracle && calls == 0 && !network && installed == map[]
    {
      this.oracle, calls, network, installed := oracle, 0, false, map[];
    }

    /** Every call of a stretch succeeded. */
    ghost predicate Worked(from: nat, to: nat)
    {
      forall k | from <= k < to :: oracle(k).Works?
    }

    method Answered() returns (a: Answer)
      modifies this`calls
      ensures a == oracle(old(calls)) && calls == old(calls) + 1
    {
      a := oracle(calls);
      calls := calls + 1;
    }

    method EnsureNetwork() returns (ok: bool)
      modifies this`calls, this`network
      ensures calls == old(calls) + 1 && (ok <==> oracle(old(calls)).Works?)
      ensures ok || old(network) ==> network
    {
      var a := Answered();
      network := network || !a.Refused?;
      ok := a.Works?;
    }

    method DeleteNetwork() returns (ok: bool)
      modifies this`calls, this`network
      ensures calls == old(calls) + 1 && (ok <==> oracle(old(calls)).Works?)
      ensures ok ==> !network
    {
      var a := Answered();
      network := network && a.Refused?;
      ok := a.Works?;
    }

    method DeleteBridge() returns (ok: bool)
      modifies this`calls
      ensures calls == old(calls) + 1 && (ok <==> oracle(old(calls)).Works?)
    {
      var a := Answered();
      ok := a.Works?;
    }

    method EnsureTunnel(id: string, t: Tunnel) returns (ok: bool)
      modifies this`calls, this`installed
      ensures calls == old(calls) + 1 && (ok <==> oracle(old(calls)).Works?)
      ensures installed == if oracle(old(calls)).Refused? then old(installed) else old(installed)[id := t]
    {
      var a := Answered();
      if !a.Refused? { installed := installed[id := t]; }
      ok := a.Works?;
    }

    method DeleteTunnel(id: string) returns (ok: bool)
      modifies this`calls, this`installed
      ensures calls == old(calls) + 1 && (ok <==> oracle(old(calls)).Works?)
      ensures installed == if oracle(old(calls)).Refused? then old(installed) else old(installed) - {id}
    {
      var a := Answered();
      if !a.Refused? { installed := installed - {id}; }
      ok := a.Works?;
    }
  }

  ghost predicate AtMostOne(active: Tunnels)
  {
    forall x, y | x in active && y in active :: x == y
  }

  predicate Accepts(s: Snapshot, generation: nat, digest: Option<seq<Endpoint>>)
  {
    if !s.authoritative || s.generation == 0 || s.generation < generation then false
    else s.generation != generation || digest.None? || digest.value == s.content.endpoints
  }

  /** Authoritative, initialized, not older than the last accepted one, and equal to it in content
      when of the same generation. */
  ghost predicate Current(s: Snapshot, generation: nat, digest: Option<seq<Endpoint>>)
  {
    && s.authoritative && s.generation > 0
    && (generation < s.generation || (generation == s.generation && (digest == None || digest == Some(s.content.endpoints))))
  }

  /** The tunnel to the VTEP of an endpoint. */
  ghost function KeyFor(c: Model1Config, ep: Endpoint): TunnelKey
  {
    TunnelKey(ep.networkID, c.network.logicalSwitch, ep.vni, ep.vtep)
  }

  /** The snapshot asks for the tunnel with this identifier. */
  ghost predicate Names(c: Model1Config, s: Snapshot, id: string)
  {
    exists i :: 0 <= i < |s.content.endpoints| && c.id(KeyFor(c, s.content.endpoints[i])) == id
  }

  /** The snapshot can be accepted by a handler that has accepted generation `since`, and asks for the tunnel. */
  ghost predicate Asks(c: Model1Config, s: Snapshot, since: nat, id: string)
  {
    s.authoritative && since <= s.generation && Programmable(c, s.content.endpoints) && Names(c, s, id)
  }

  lemma AskedIsNamed(c: Model1Config, s: Snapshot, desired: Tunnels, id: string)
    requires Programmable(c, s.content.endpoints) && AsksFor(c, s.content.endpoints, desired) && id in desired
    ensures Names(c, s, id)
  {
    assert ProgrammableAt(c, s.content.endpoints, 0, 0) && TunnelFor(c, s.content.endpoints, id, desired[id]);
    assert c.id(KeyFor(c, s.content.endpoints[0])) == id;
  }

  class Handler {
    const programmer: Programmer
    const config: Model1Config
    var active: Tunnels
    var generation: nat
    var digest: Option<seq<Endpoint>>

    ghost predicate Valid()
      reads this, programmer
    {
      AtMostOne(active) && (active != map[] ==> programmer.network)
    }

    constructor (programmer: Programmer, config: Model1Config)
      ensures Valid() && this.programmer == programmer && this.config == config
      ensures active == map[] && generation == 0 && digest == None
    {
      this.programmer, this.config, active, generation, digest := programmer, config, map[], 0, None;
    }

    method DeleteOne(id: string) returns (ok: bool)
      requires Valid()
      modifies this`active, programmer`installed, programmer`calls
      ensures Valid() && programmer.calls == old(programmer.calls) + 1 && (ok <==> programmer.oracle(old(programmer.calls)).Works?)
      ensures active == if ok then old(active) - {id} else old(active)
      ensures programmer.installed == old(programmer.installed) - {id} || (!ok && programmer.installed == old(programmer.installed))
    {
      ok := programmer.DeleteTunnel(id);
      if ok { active := active - {id}; }
    }

    /** Withdraws every active tunnel that is no longer wanted, before any replacement is created. */
    method DeleteObsolete(desired: Tunnels) returns (ok: bool)
      requires Valid()
      modifies this`active, programmer`installed, programmer`calls
      ensures Valid() && active.Keys <= old(active).Keys && old(programmer.calls) <= programmer.calls
      ensures ok <==> programmer.Worked(old(programmer.calls), programmer.calls)
      ensures ok ==> active == Pruning(old(active), old(active), desired)
      ensures ok ==> programmer.installed == Pruning(old(programmer.installed), old(active), desired)
      ensures old(programmer.installed).Keys - old(active).Keys <= programmer.installed.Keys <= old(programmer.installed).Keys
      ensures old(active) == map[] ==> programmer.calls == old(programmer.calls)
    {
      var todo := active.Keys;
      if todo == {} {
        NothingToPrune(active, desired, active);
        NothingToPrune(active, desired, programmer.installed);
      }
      while todo != {}
        invariant Valid() && (todo == {} || todo == old(active).Keys)
        invariant todo != {} ==> active == old(active) && Unmoved(old(programmer.calls), old(programmer.installed))
        invariant todo == {} ==> Pruned(old(programmer.calls), old(programmer.installed), old(active), desired)
        decreases |todo|
      {
        var id := Least(todo);
        OnlyOneToPrune(active, desired, id, active);
        OnlyOneToPrune(active, desired, id, programmer.installed);
        if id !in desired {
          ok := DeleteOne(id);
          if !ok { return; }
        }
        todo := todo - {id};
      }
      return true;
    }

    /** The obsolete tunnels are gone, and every call made for it worked. */
    ghost predicate Pruned(calls: nat, installed: Tunnels, was: Tunnels, desired: Tunnels)
      reads this, programmer
    {
      && calls <= programmer.calls && programmer.Worked(calls, programmer.calls)
      && active == Pruning(was, was, desired) && programmer.installed == Pruning(installed, was, desired)
      && (was == map[] ==> programmer.calls == calls)
    }

    method EnsureOne(id: string, t: Tunnel) returns (ok: bool)
      modifies this`active, programmer`installed, programmer`calls
      ensures programmer.calls == old(programmer.calls) + 1 && (ok <==> programmer.oracle(old(programmer.calls)).Works?)
      ensures programmer.installed == if programmer.oracle(old(programmer.calls)).Refused? then old(programmer.installed)
                                      else old(programmer.installed)[id := t]
      ensures active == if ok then old(active)[id := t] else old(active)
    {
      ok := programmer.EnsureTunnel(id, t);
      if ok { active := active[id := t]; }
    }

    /** Creates or updates the wanted tunnel, in one call if there is one. */
    method EnsureDesired(desired: Tunnels) returns (ok: bool)
      requires Valid() && AtMostOne(desired) && active.Keys <= desired.Keys && (desired != map[] ==> programmer.network)
      modifies this`active, programmer`installed, programmer`calls
      ensures Valid()
      ensures desired == map[] ==> ok && active == map[] && Unmoved(old(programmer.calls), old(programmer.installed))
      ensures desired != map[] ==> Ensured(old(programmer.calls), old(programmer.installed), old(active), desired, ok)
    {
      var todo := desired.Keys;
      while todo != {}
        invariant Valid() && (todo == {} || todo == desired.Keys)
        invariant todo == desired.Keys ==> active == old(active) && Unmoved(old(programmer.calls), old(programmer.installed))
        invariant todo != desired.Keys ==>
          Ensured(old(programmer.calls), old(programmer.installed), old(active), desired, true)
        decreases |todo|
      {
        var id := Least(todo);
        OnlyTunnel(desired, id, programmer.installed);
        OnlyTunnel(desired, id, active);
        ok := EnsureOne(id, desired[id]);
        if !ok { return; }
        todo := todo - {id};
      }
      return true;
    }

    /** Deletes the obsolete tunnel and ensures the wanted one. */
    method Replace(desired: Tunnels) returns (ok: bool)
      requires Valid() && AtMostOne(desired) && (desired != map[] ==> programmer.network)
      modifies this`active, programmer`installed, programmer`calls
      ensures Valid() && old(programmer.calls) <= programmer.calls
      ensures active.Keys <= old(active).Keys + desired.Keys
      ensures ok <==> programmer.Worked(old(programmer.calls), programmer.calls)
      ensures ok ==> active == desired && programmer.installed == Left(old(programmer.installed), old(active)) + desired
      ensures Left(old(programmer.installed), old(active)).Keys <= programmer.installed.Keys
      ensures old(active) == map[] && desired != map[] ==>
        Ensured(old(programmer.calls), old(programmer.installed), map[], desired, ok)
    {
      ghost var start, installed, was := programmer.calls, programmer.installed, active;
      ok := DeleteObsolete(desired);
      if !ok { return; }
      ghost var middle := programmer.calls;
      ok := EnsureDesired(desired);
      if ok { Merged(installed, was, desired); }
      assert desired != map[] ==> programmer.calls == middle + 1;
    }

    method DeleteProvider() returns (ok: bool)
      requires Valid() && active == map[]
      modifies programmer`network, programmer`calls
      ensures Valid() && (ok ==> !programmer.network) && old(programmer.calls) <= programmer.calls
      ensures ok <==> programmer.Worked(old(programmer.calls), programmer.calls)
    {
      ok := programmer.DeleteNetwork();
      if ok { ok := programmer.DeleteBridge(); }
    }

    /** Makes the wanted tunnel, if any, the only active one: the network first, the provider last. */
    method Program(desired: Tunnels) returns (ok: bool)
      requires Valid() && AtMostOne(desired)
      modifies this`active, programmer
      ensures Valid() && old(programmer.calls) <= programmer.calls
      ensures active.Keys <= old(active).Keys + desired.Keys
      ensures ok <==> programmer.Worked(old(programmer.calls), programmer.calls)
      ensures ok ==> active == desired && programmer.installed == Left(old(programmer.installed), old(active)) + desired
      ensures ok && desired == map[] ==> !programmer.network
      ensures Left(old(programmer.installed), old(active)).Keys <= programmer.installed.Keys
      ensures old(active) == map[] && desired != map[] && Loses(old(programmer.calls)) ==>
        && !ok && active == map[] && programmer.calls == old(programmer.calls) + 2
        && programmer.installed == old(programmer.installed) + desired
    {
      if desired != map[] {
        ok := programmer.EnsureNetwork();
        if !ok { return; }
      }
      ok := Replace(desired);
      if ok && desired == map[] { ok := DeleteProvider(); }
    }

    /** Brings the databases to the tunnel of a snapshot. It succeeds exactly when the snapshot is
        current and programmable and every call it makes works. Whatever fails in between, at most one
        tunnel is active, an active tunnel has its network, and a tunnel that was installed without
        being active stays. After a success the installed tunnels are those and the active one. */
    method Reconcile(s: Snapshot) returns (ok: bool)
      requires Valid()
      modifies this, programmer
      ensures Valid() && old(generation) <= generation && old(programmer.calls) <= programmer.calls
      ensures ok <==> Current(s, old(generation), old(digest)) && Programmable(config, s.content.endpoints)
                      && programmer.Worked(old(programmer.calls), programmer.calls)
      ensures ok ==> generation == s.generation && digest == Some(s.content.endpoints)
      ensures ok ==> AsksFor(config, s.content.endpoints, active)
      ensures ok && s.content.endpoints == [] ==> !programmer.network
      ensures ok ==> programmer.installed == Left(old(programmer.installed), old(active)) + active
      ensures ok ==> (programmer.installed == active <==> Left(old(programmer.installed), old(active)).Keys <= active.Keys)
      ensures Left(old(programmer.installed), old(active)).Keys <= programmer.installed.Keys
      ensures forall id | id in active && id !in old(active) :: Names(config, s, id)
      ensures !ok ==> generation == old(generation) && digest == old(digest)
      ensures !Current(s, old(generation), old(digest)) || !Programmable(config, s.content.endpoints) ==>
        && active == old(active) && programmer.installed == old(programmer.installed)
        && programmer.network == old(programmer.network) && programmer.calls == old(programmer.calls)
      ensures LosesCreation(s, old(generation), old(digest), old(active), old(programmer.calls)) ==>
        && !ok && active == map[] && programmer.calls == old(programmer.calls) + 2
        && exists desired :: AsksFor(config, s.content.endpoints, desired)
                             && programmer.installed == old(programmer.installed) + desired
    {
      if !Accepts(s, generation, digest) { return false; }
      var desired := BuildTunnels(config, s.content.endpoints);
      if desired.None? { return false; }
      ok := Program(desired.value);
      forall id | id in active && id !in old(active) ensures Names(config, s, id) {
        AskedIsNamed(config, s, desired.value, id);
      }
      if !ok { return; }
      ExactIff(Left(old(programmer.installed), old(active)), active);
      generation, digest := s.generation, Some(s.content.endpoints);
    }

    /** One call works and the next takes effect with an error. */
    ghost predicate Loses(calls: nat)
    {
      programmer.oracle(calls).Works? && programmer.oracle(calls + 1).Lost?
    }

    /** The network is ensured and the creation of the first tunnel takes effect with an error. */
    ghost predicate LosesCreation(s: Snapshot, since: nat, last: Option<seq<Endpoint>>, was: Tunnels, calls: nat)
    {
      && Current(s, since, last) && Programmable(config, s.content.endpoints) && s.content.endpoints != []
      && was == map[] && Loses(calls)
    }

    ghost predicate Unmoved(calls: nat, installed: Tunnels)
      reads programmer
    {
      programmer.calls == calls && programmer.installed == installed
    }

    /** One call was made for the wanted tunnel, with this effect. */
    ghost predicate Ensured(calls: nat, installed: Tunnels, was: Tunnels, desired: Tunnels, ok: bool)
      reads this, programmer
    {
      && programmer.calls == calls + 1 && (ok <==> programmer.oracle(calls).Works?)
      && programmer.installed == (if programmer.oracle(calls).Refused? then installed else installed + desired)
      && active == if ok then desired else was
    }
  }

  /** Storing the only wanted tunnel stores all that is wanted. */
  lemma OnlyTunnel(desired: Tunnels, id: string, known: Tunnels)
    requires AtMostOne(desired) && id in desired
    ensures desired.Keys == {id} && known[id := desired[id]] == known + desired
    ensures known.Keys <= desired.Keys ==> known[id := desired[id]] == desired
  {
    assert desired.Keys == {id};
    assert known.Keys <= {id} ==> known[id := desired[id]] == desired;
  }

  /** The tunnels installed without being active. */
  function Left(installed: Tunnels, active: Tunnels): Tunnels
  {
    installed - active.Keys
  }

  /** What remains of the known tunnels without those active and no longer wanted. */
  function Pruning(known: Tunnels, active: Tunnels, desired: Tunnels): Tunnels
  {
    known - (active.Keys - desired.Keys)
  }

  lemma NothingToPrune(active: Tunnels, desired: Tunnels, known: Tunnels)
    requires active.Keys == {}
    ensures Pruning(known, active, desired) == known
  {
  }

  lemma OnlyOneToPrune(active: Tunnels, desired: Tunnels, id: string, known: Tunnels)
    requires AtMostOne(active) && id in active
    ensures active.Keys == {id} && Pruning(known, active, desired) == if id in desired then known else known - {id}
  {
    assert active.Keys == {id};
    assert active.Keys - desired.Keys == if id in desired then {} else {id};
  }

  lemma Merged(installed: Tunnels, was: Tunnels, desired: Tunnels)
    ensures Pruning(installed, was, desired) + desired == Left(installed, was) + desired
  {
    var a, b := Pruning(installed, was, desired) + desired, Left(installed, was) + desired;
    assert a.Keys == b.Keys;
  }

  lemma ExactIff(left: Tunnels, active: Tunnels)
    ensures left + active == active <==> left.Keys <= active.Keys
  {
    assert (left + active).Keys == left.Keys + active.Keys;
  }

  /** Any snapshots in any order with any answers: at most one tunnel is active and has its network,
      the accepted generation never goes back, and a tunnel installed without being active stays
      exactly so until a snapshot that can be accepted asks for it. */
  method AnyHandlerRun(h: Handler, snapshots: seq<Snapshot>, ghost id: string) returns (accepted: seq<nat>)
    requires h.Valid()
    modifies h, h.programmer
    ensures h.Valid() && old(h.generation) <= h.generation
    ensures forall i, j | 0 <= i < j < |accepted| :: accepted[i] <= accepted[j]
    ensures id in Left(old(h.programmer.installed), old(h.active)) &&
            (forall s | s in snapshots :: !Asks(h.config, s, old(h.generation), id)) ==>
      id in Left(h.programmer.installed, h.active)
  {
    accepted := [];
    for k := 0 to |snapshots|
      invariant h.Valid() && old(h.generation) <= h.generation
      invariant forall i | 0 <= i < |accepted| :: accepted[i] <= h.generation
      invariant forall i, j | 0 <= i < j < |accepted| :: accepted[i] <= accepted[j]
      invariant id in Left(old(h.programmer.installed), old(h.active)) &&
                (forall s | s in snapshots :: !Asks(h.config, s, old(h.generation), id)) ==>
        id in Left(h.programmer.installed, h.active)
    {
      assert snapshots[k] in snapshots;
      var ok := h.Reconcile(snapshots[k]);
      if ok { accepted := accepted + [snapshots[k].generation]; }
    }
  }

  /** How a tunnel is left behind: its creation takes effect with an error, and the next snapshot is
      empty. The second reconciliation succeeds with no tunnel active and the first one installed. */
  method LeftBehind(h: Handler, a: Snapshot, e: Snapshot) returns (first: bool, second: bool)
    requires h.Valid() && h.programmer.installed == map[]
    requires h.LosesCreation(a, h.generation, h.digest, h.active, h.programmer.calls)
    requires forall k | h.programmer.calls + 2 <= k :: h.programmer.oracle(k).Works?
    requires Current(e, h.generation, h.digest) && e.content.endpoints == []
    modifies h, h.programmer
    ensures !first && second && h.active == map[] && AsksFor(h.config, a.content.endpoints, h.programmer.installed)
    ensures h.programmer.installed != map[]
  {
    first := h.Reconcile(a);
    ghost var desired :| AsksFor(h.config, a.content.endpoints, desired) && h.programmer.installed == map[] + desired;
    NothingLeft(desired);
    NothingProgrammable(h.config);
    second := h.Reconcile(e);
  }

  lemma NothingLeft(known: Tunnels)
    ensures map[] + known == known && Left(known, map[]) + map[] == known
  {
  }

  lemma NothingProgrammable(c: Model1Config)
    ensures Programmable(c, [])
  {
    forall i, j ensures ProgrammableAt(c, [], i, j) { }
  }
}

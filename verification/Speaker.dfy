/** The BGP speaker as the exporter meets it. It survives a crash of the controller.
    Other parties may add local paths but do not remove them (exclusive writer), a
    restarted speaker has an incarnation never seen before, and AddPath never hands
    out the same UUID twice. A failed AddPath may or may not have taken effect. */
module SpeakerEnvironment {
  import opened Basics
  import opened Endpoints

  /** `handles` remembers, for each canonical UUID returned by AddPath, its NLRI bytes. */
  datatype World = World(incarnation: string, paths: seq<RibPath>, used: set<string>, handles: map<string, string>)

  predicate LocalWith(path: RibPath, bytes: string)
  {
    path.local && path.nlri.Some? && path.nlri.value.bytes == Some(bytes)
  }

  predicate Carries(paths: seq<RibPath>, bytes: string)
  {
    exists i :: 0 <= i < |paths| && LocalWith(paths[i], bytes)
  }

  ghost predicate WellFormed(w: World)
  {
    w.incarnation != "" && w.incarnation in w.used
  }

  ghost predicate Retains(a: seq<RibPath>, b: seq<RibPath>, gone: set<string>)
  {
    forall bytes | Carries(a, bytes) && bytes !in gone :: Carries(b, bytes)
  }

  /** `b` is reachable from `a` when this controller withdraws at most `gone` meanwhile. */
  ghost predicate Evolves(a: World, b: World, gone: set<string>)
  {
    && WellFormed(a) && WellFormed(b) && a.used <= b.used
    && (forall id | id in a.handles :: id in b.handles && b.handles[id] == a.handles[id])
    && (a.incarnation == b.incarnation ==> Retains(a.paths, b.paths, gone))
    && (a.incarnation != b.incarnation ==> b.incarnation !in a.used)
  }

  lemma EvolvesTransitive(a: World, b: World, c: World, g: set<string>, h: set<string>)
    requires Evolves(a, b, g) && Evolves(b, c, h)
    ensures Evolves(a, c, g + h)
  {
    if a.incarnation == c.incarnation {
      forall bytes | Carries(a.paths, bytes) && bytes !in g + h ensures Carries(c.paths, bytes) {
        assert Carries(b.paths, bytes);
      }
    }
  }

  datatype Observation = Observation(incarnation: string, paths: seq<RibPath>)

  /** A complete reading of the RIB: the instant it describes, and the last record on disk at that time. */
  datatype RibReading = RibReading(mark: nat, world: World)

  class Speaker {
    const codec: Codec
    var now: World
    /** UUIDs AddPath returned whose acknowledgement never reached the journal. */
    ghost var orphans: set<string>
    /** Every complete reading of the RIB so far. */
    ghost var readings: set<RibReading>

    ghost predicate Valid()
      reads this
    {
      WellFormed(now) && orphans <= now.handles.Keys
    }

    constructor (codec: Codec, incarnation: string)
      requires incarnation != ""
      ensures Valid() && this.codec == codec && now.handles == map[] && orphans == {} && readings == {}
    {
      this.codec := codec;
      now := World(incarnation, [], {incarnation}, map[]);
      orphans, readings := {}, {};
    }

    /** Whatever happens between two requests: new paths, or a restart. */
    method Drift()
      requires Valid()
      modifies this`now
      ensures Valid() && Evolves(old(now), now, {}) && now.handles == old(now).handles
    {
      var restart: bool := *;
      var next: string, more: seq<RibPath> := *, *;
      if restart {
        if next != "" && next !in now.used {
          now := World(next, more, now.used + {next}, now.handles);
        }
      } else if forall i | 0 <= i < |now.paths| && now.paths[i].local && now.paths[i].nlri.Some?
                           && now.paths[i].nlri.value.bytes.Some? :: Carries(more, now.paths[i].nlri.value.bytes.value) {
        now := now.(paths := more);
      }
    }

    /** Attestation, a complete RIB read, and the same incarnation before and after.
        None stands for every failure. `at` is the instant the paths describe. */
    method Observe(ghost mark: nat) returns (o: Option<Observation>, ghost at: World)
      requires Valid()
      modifies this`now, this`readings
      ensures Valid() && Evolves(old(now), at, {}) && Evolves(at, now, {}) && now.handles == old(now).handles
      ensures o.Some? ==> o.value == Observation(at.incarnation, at.paths)
      ensures readings == old(readings) + if o.Some? then {RibReading(mark, at)} else {}
      ensures o.Some? ==> forall i | 0 <= i < |at.paths| :: at.paths[i].nlri.Some? && at.paths[i].nlri.value.bytes.Some?
    {
      Drift();
      at := now;
      var before, paths := now.incarnation, now.paths;
      Drift();
      var failed: bool := *;
      if failed || before != now.incarnation
         || exists i :: 0 <= i < |paths| && (paths[i].nlri.None? || paths[i].nlri.value.bytes.None?) {
        return None, at;
      }
      o := Some(Observation(before, paths));
      readings := readings + {RibReading(mark, at)};
    }

    method AddPath(bytes: string) returns (id: Option<string>)
      requires Valid()
      modifies this`now, this`orphans
      ensures Valid() && Evolves(old(now), now, {})
      ensures old(orphans) <= orphans
      ensures id.Some? && codec.parseUUID(id.value).Some? ==>
        var u := codec.parseUUID(id.value).value;
        && u !in old(now).handles && u in now.handles && now.handles[u] == bytes && orphans == old(orphans) + {u}
      ensures id.None? || codec.parseUUID(id.value).None? ==> orphans == old(orphans)
    {
      var start := now;
      Drift();
      var failed: bool := *;
      var returned: string := *;
      if failed { return None; }
      if codec.parseUUID(returned).Some? {
        var u := codec.parseUUID(returned).value;
        if u in now.handles { return None; }
        now := now.(handles := now.handles[u := bytes]);
        orphans := orphans + {u};
      }
      id := Some(returned);
    }

    ghost function Withdrawn(id: string): set<string>
      reads this
    {
      var u := codec.parseUUID(id);
      if u.Some? && u.value in now.handles then {now.handles[u.value]} else {}
    }

    /** Deletes at most the path its UUID was returned for; may fail after doing so. */
    method DeletePath(id: string) returns (ok: bool)
      requires Valid()
      modifies this`now
      ensures Valid() && Evolves(old(now), now, old(Withdrawn(id))) && now.handles == old(now).handles
    {
      Drift();
      var u := codec.parseUUID(id);
      ok := *;
      var done: bool := *;
      if (ok || done) && u.Some? && u.value in now.handles {
        ghost var mid := now;
        var rest := DropLocal(now.paths, now.handles[u.value]);
        now := now.(paths := rest);
        assert Evolves(mid, now, old(Withdrawn(id)));
        EvolvesTransitive(old(now), mid, now, {}, old(Withdrawn(id)));
        assert {} + old(Withdrawn(id)) == old(Withdrawn(id));
      }
    }
  }

  function DropLocal(paths: seq<RibPath>, bytes: string): (r: seq<RibPath>)
    ensures Retains(paths, r, {bytes}) && !Carries(r, bytes)
  {
    if paths == [] then []
    else
      var rest := DropLocal(paths[1..], bytes);
      var r := if LocalWith(paths[0], bytes) then rest else [paths[0]] + rest;
      assert Retains(paths, r, {bytes}) && !Carries(r, bytes) by { DropLocalStep(paths, rest, bytes); }
      r
  }

  lemma DropLocalStep(paths: seq<RibPath>, rest: seq<RibPath>, bytes: string)
    requires paths != [] && Retains(paths[1..], rest, {bytes}) && !Carries(rest, bytes)
    ensures var r := if LocalWith(paths[0], bytes) then rest else [paths[0]] + rest;
            Retains(paths, r, {bytes}) && !Carries(r, bytes)
  {
    var r := if LocalWith(paths[0], bytes) then rest else [paths[0]] + rest;
    forall b | Carries(paths, b) && b != bytes ensures Carries(r, b) {
      var i :| 0 <= i < |paths| && LocalWith(paths[i], b);
      if i == 0 {
        assert LocalWith(r[0], b);
      } else {
        assert LocalWith(paths[1..][i - 1], b);
        assert Carries(paths[1..], b) && Carries(rest, b);
        var j :| 0 <= j < |rest| && LocalWith(rest[j], b);
        assert LocalWith(r[if |r| == |rest| then j else j + 1], b);
      }
    }
    assert forall i | 0 <= i < |r| :: r[i] in rest || !LocalWith(r[i], bytes);
    assert forall p | p in rest :: !LocalWith(p, bytes);
  }
}

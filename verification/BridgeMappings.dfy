/** The `ovn-bridge-mappings` value of the Open_vSwitch row, and the one mapping this program owns. */
module BridgeMappings {
  import opened Basics

  type Mappings = map<string, string>

  const MAPPINGS_KEY := "ovn-bridge-mappings"
  const OWNER_PREFIX := "evpn4ovn-model1-bridge-map-"
  const MAX_BRIDGE_NAME := 15

  predicate Plain(s: string)
  {
    forall c | c in s :: c !in ":, \t\r\n"
  }

  predicate ValidMapping(physnet: string, bridge: string)
  {
    && !Blank(physnet) && !Blank(bridge) && |bridge| <= MAX_BRIDGE_NAME
    && bridge != "." && bridge != ".." && bridge != "br-int" && Plain(physnet) && Plain(bridge)
  }

  ghost predicate ValidMappings(m: Mappings)
  {
    forall physnet | physnet in m :: ValidMapping(physnet, m[physnet])
  }

  // ---------------------------------------------------------------- text

  function IndexOf(s: string, c: char): (i: nat)
    requires c in s
    ensures i < |s| && s[i] == c && c !in s[..i]
  {
    if s[0] == c then 0 else
      var i := 1 + IndexOf(s[1..], c);
      assert s[..i] == [s[0]] + s[1..][..i - 1];
      i
  }

  function Split(s: string, c: char): (parts: seq<string>)
    ensures parts != [] && forall p | p in parts :: c !in p
  {
    if c !in s then [s] else
      var i := IndexOf(s, c);
      [s[..i]] + Split(s[i + 1..], c)
  }

  function Join(parts: seq<string>, c: char): string
  {
    if parts == [] then "" else if |parts| == 1 then parts[0] else parts[0] + [c] + Join(parts[1..], c)
  }

  lemma SplitFirst(a: string, c: char, b: string)
    requires c !in a
    ensures c in a + [c] + b && IndexOf(a + [c] + b, c) == |a|
  {
    var s := a + [c] + b;
    assert s[|a|] == c;
    assert forall k | 0 <= k < |a| :: s[k] == a[k];
    assert forall i | |a| < i <= |s| :: s[..i][|a|] == c;
  }

  lemma {:induction false} SplitJoin(parts: seq<string>, c: char)
    requires parts != [] && forall p | p in parts :: c !in p
    ensures Split(Join(parts, c), c) == parts
  {
    if |parts| > 1 {
      var rest := Join(parts[1..], c);
      var s := parts[0] + [c] + rest;
      SplitFirst(parts[0], c, rest);
      assert s[..|parts[0]|] == parts[0] && s[|parts[0]| + 1..] == rest;
      SplitJoin(parts[1..], c);
    }
  }

  // ---------------------------------------------------------------- parsing

  /** `SplitN(entry, ":", 2)` followed by the validity test. */
  function ParseEntry(entry: string): Option<(string, string)>
  {
    if ':' !in entry then None
    else
      var i := IndexOf(entry, ':');
      if ValidMapping(entry[..i], entry[i + 1..]) then Some((entry[..i], entry[i + 1..])) else None
  }

  /** A network and a bridge that can be mapped: neither blank, no separators or white space, and a bridge name
      that fits an interface and is neither a path nor the integration bridge. */
  ghost predicate Usable(physnet: string, bridge: string)
  {
    && (exists i :: 0 <= i < |physnet| && !IsSpace(physnet[i])) && (exists i :: 0 <= i < |bridge| && !IsSpace(bridge[i]))
    && (forall i | 0 <= i < |physnet| :: Bare(physnet[i])) && (forall i | 0 <= i < |bridge| :: Bare(bridge[i]))
    && |bridge| <= 15 && bridge != "." && bridge != ".." && bridge != "br-int"
  }

  ghost predicate Bare(c: char)
  {
    c != ':' && c != ',' && c != ' ' && c != '\t' && c != '\r' && c != '\n'
  }

  lemma UsableIff(physnet: string, bridge: string)
    ensures ValidMapping(physnet, bridge) <==> Usable(physnet, bridge)
  {
    PlainIff(physnet);
    PlainIff(bridge);
  }

  lemma PlainIff(s: string)
    ensures Plain(s) <==> forall i | 0 <= i < |s| :: Bare(s[i])
  {
    forall c: char ensures c !in ":, \t\r\n" <==> Bare(c) { BareIff(c); }
    forall i | 0 <= i < |s| ensures s[i] in s { }
  }

  lemma BareIff(c: char)
    ensures c !in ":, \t\r\n" <==> Bare(c)
  {
    var all := ":, \t\r\n";
    assert all[0] == ':' && all[1] == ',' && all[2] == ' ' && all[3] == '\t' && all[4] == '\r' && all[5] == '\n';
  }

  /** An entry parses exactly when it is a usable network, a colon and a bridge, and then into these. */
  lemma EntryIff(entry: string, physnet: string, bridge: string)
    ensures ParseEntry(entry) == Some((physnet, bridge)) <==> entry == physnet + ":" + bridge && Usable(physnet, bridge)
  {
    UsableIff(physnet, bridge);
    if entry == physnet + ":" + bridge && ValidMapping(physnet, bridge) { PlainEntry(physnet, bridge); }
  }

  /** The entries in order; None on an invalid entry or a repeated physical network. */
  function Collect(entries: seq<string>): Option<Mappings>
  {
    if entries == [] then Some(map[])
    else
      var m, e := Collect(entries[..|entries| - 1]), ParseEntry(entries[|entries| - 1]);
      if m.None? || e.None? || e.value.0 in m.value then None else Some(m.value[e.value.0 := e.value.1])
  }

  function Parsed(raw: string): Option<Mappings>
  {
    if raw == "" then Some(map[]) else Collect(Split(raw, ','))
  }

  lemma {:induction false} CollectPrefix(entries: seq<string>, k: nat)
    requires k <= |entries| && Collect(entries[..k]).None?
    ensures Collect(entries).None?
    decreases |entries| - k
  {
    if k < |entries| {
      assert entries[..k + 1][..k] == entries[..k];
      CollectPrefix(entries, k + 1);
    } else {
      assert entries[..k] == entries;
    }
  }

  method Parse(raw: string) returns (m: Option<Mappings>)
    ensures m == Parsed(raw)
  {
    var mappings: Mappings := map[];
    if raw == "" { return Some(mappings); }
    var entries := Split(raw, ',');
    for k := 0 to |entries|
      invariant Collect(entries[..k]) == Some(mappings)
    {
      assert entries[..k + 1][..k] == entries[..k];
      var e := ParseEntry(entries[k]);
      if e.None? || e.value.0 in mappings {
        CollectPrefix(entries, k + 1);
        return None;
      }
      mappings := mappings[e.value.0 := e.value.1];
    }
    assert entries[..|entries|] == entries;
    return Some(mappings);
  }

  ghost predicate Named(entries: seq<string>, physnet: string, bridge: string)
  {
    exists i :: 0 <= i < |entries| && ParseEntry(entries[i]) == Some((physnet, bridge))
  }

  lemma NamedStep(entries: seq<string>, physnet: string, bridge: string)
    requires entries != []
    ensures Named(entries, physnet, bridge) <==>
      Named(entries[..|entries| - 1], physnet, bridge) || ParseEntry(entries[|entries| - 1]) == Some((physnet, bridge))
  {
    var init := entries[..|entries| - 1];
    if Named(init, physnet, bridge) {
      var i :| 0 <= i < |init| && ParseEntry(init[i]) == Some((physnet, bridge));
      assert entries[i] == init[i];
    }
    if Named(entries, physnet, bridge) {
      var i :| 0 <= i < |entries| && ParseEntry(entries[i]) == Some((physnet, bridge));
      assert i < |init| ==> init[i] == entries[i];
    }
  }

  /** The result maps exactly what the entries name. */
  lemma {:induction false} CollectNames(entries: seq<string>, physnet: string, bridge: string)
    requires Collect(entries).Some?
    ensures var m := Collect(entries).value;
      (physnet in m && m[physnet] == bridge) <==> Named(entries, physnet, bridge)
  {
    if entries != [] {
      var init := entries[..|entries| - 1];
      CollectNames(init, physnet, bridge);
      NamedStep(entries, physnet, bridge);
    }
  }

  predicate SameNetwork(a: string, b: string)
  {
    ParseEntry(a).Some? && ParseEntry(b).Some? && ParseEntry(a).value.0 == ParseEntry(b).value.0
  }

  ghost predicate Acceptable(entries: seq<string>)
  {
    && (forall i | 0 <= i < |entries| :: ParseEntry(entries[i]).Some?)
    && (forall i, j | 0 <= i < j < |entries| :: !SameNetwork(entries[i], entries[j]))
  }

  /** What is accepted, said without the order of reading: every entry is valid and no two name
      the same physical network. */
  lemma {:induction false} AcceptedIff(entries: seq<string>)
    ensures Collect(entries).Some? <==> Acceptable(entries)
  {
    if entries != [] {
      var init, last := entries[..|entries| - 1], entries[|entries| - 1];
      AcceptedIff(init);
      assert forall i | 0 <= i < |init| :: init[i] == entries[i];
      if Collect(init).Some? && ParseEntry(last).Some? { RepeatedIff(entries); }
    }
  }

  lemma RepeatedIff(entries: seq<string>)
    requires entries != [] && Collect(entries[..|entries| - 1]).Some? && ParseEntry(entries[|entries| - 1]).Some?
    ensures ParseEntry(entries[|entries| - 1]).value.0 in Collect(entries[..|entries| - 1]).value <==>
      exists i :: 0 <= i < |entries| - 1 && SameNetwork(entries[i], entries[|entries| - 1])
  {
    var init, last := entries[..|entries| - 1], entries[|entries| - 1];
    var m, p := Collect(init).value, ParseEntry(last).value.0;
    if p in m {
      CollectNames(init, p, m[p]);
      var i :| 0 <= i < |init| && ParseEntry(init[i]) == Some((p, m[p]));
      assert SameNetwork(entries[i], last);
    }
    if i :| 0 <= i < |entries| - 1 && SameNetwork(entries[i], last) {
      var e := ParseEntry(entries[i]).value;
      assert init[i] == entries[i] && Named(init, e.0, e.1);
      CollectNames(init, e.0, e.1);
    }
  }

  lemma ParsedIsValid(raw: string)
    requires Parsed(raw).Some?
    ensures ValidMappings(Parsed(raw).value)
  {
    if raw != "" {
      var m := Parsed(raw).value;
      forall p | p in m ensures ValidMapping(p, m[p]) {
        CollectNames(Split(raw, ','), p, m[p]);
        var i :| 0 <= i < |Split(raw, ',')| && ParseEntry(Split(raw, ',')[i]) == Some((p, m[p]));
      }
    }
  }

  // ---------------------------------------------------------------- printing

  function EntriesOf(keys: seq<string>, m: Mappings): (r: seq<string>)
    requires forall k | k in keys :: k in m
    ensures |r| == |keys|
  {
    if keys == [] then [] else EntriesOf(keys[..|keys| - 1], m) + [keys[|keys| - 1] + ":" + m[keys[|keys| - 1]]]
  }

  function Formatted(m: Mappings): string
  {
    Join(EntriesOf(SortedKeys(m.Keys), m), ',')
  }

  method Format(m: Mappings) returns (raw: string)
    ensures raw == Formatted(m)
  {
    var keys := SortedKeys(m.Keys);
    var entries := [];
    for k := 0 to |keys|
      invariant entries == EntriesOf(keys[..k], m)
    {
      assert keys[..k + 1][..k] == keys[..k];
      entries := entries + [keys[k] + ":" + m[keys[k]]];
    }
    assert keys[..|keys|] == keys;
    raw := Join(entries, ',');
  }

  lemma PlainEntry(physnet: string, bridge: string)
    requires ValidMapping(physnet, bridge)
    ensures ',' !in physnet + ":" + bridge && ParseEntry(physnet + ":" + bridge) == Some((physnet, bridge))
  {
    var entry := physnet + ":" + bridge;
    assert ':' !in physnet && ',' !in physnet && ',' !in bridge;
    SplitFirst(physnet, ':', bridge);
    assert entry == physnet + [':'] + bridge;
    assert entry[..|physnet|] == physnet && entry[|physnet| + 1..] == bridge;
  }

  ghost predicate ValidAt(m: Mappings, key: string)
  {
    key in m && ValidMapping(key, m[key])
  }

  lemma {:induction false} EntriesPlain(keys: seq<string>, m: Mappings)
    requires forall k | k in keys :: k in m
    requires forall k | k in keys :: ValidAt(m, k)
    ensures forall e | e in EntriesOf(keys, m) :: ',' !in e
  {
    if keys != [] {
      var last := keys[|keys| - 1];
      assert ValidAt(m, last);
      EntriesPlain(keys[..|keys| - 1], m);
      PlainEntry(last, m[last]);
    }
  }

  ghost function Restricted(keys: seq<string>, m: Mappings): Mappings
  {
    map k | k in keys && k in m :: m[k]
  }

  lemma CollectStep(init: seq<string>, physnet: string, bridge: string)
    requires Collect(init).Some? && ValidMapping(physnet, bridge) && physnet !in Collect(init).value
    ensures Collect(init + [physnet + ":" + bridge]) == Some(Collect(init).value[physnet := bridge])
  {
    var entries := init + [physnet + ":" + bridge];
    assert entries[..|entries| - 1] == init;
    PlainEntry(physnet, bridge);
  }

  lemma RestrictedStep(keys: seq<string>, m: Mappings)
    requires keys != [] && StrictlySorted(keys) && keys[|keys| - 1] in m
    ensures var init, last := keys[..|keys| - 1], keys[|keys| - 1];
      last !in Restricted(init, m) && Restricted(keys, m) == Restricted(init, m)[last := m[last]] && StrictlySorted(init)
  {
    var init, last := keys[..|keys| - 1], keys[|keys| - 1];
    assert keys == init + [last];
  }

  lemma {:induction false} CollectEntries(keys: seq<string>, m: Mappings)
    requires StrictlySorted(keys) && forall k | k in keys :: k in m
    requires forall k | k in keys :: ValidAt(m, k)
    ensures Collect(EntriesOf(keys, m)) == Some(Restricted(keys, m))
  {
    if keys == [] {
      assert Restricted(keys, m) == map[];
    } else {
      var init, last := keys[..|keys| - 1], keys[|keys| - 1];
      assert ValidAt(m, last);
      RestrictedStep(keys, m);
      CollectEntries(init, m);
      CollectStep(EntriesOf(init, m), last, m[last]);
    }
  }

  /** Parsing what was printed gives the mappings back. */
  lemma RoundTrip(m: Mappings)
    requires ValidMappings(m)
    ensures Parsed(Formatted(m)) == Some(m)
  {
    var keys := SortedKeys(m.Keys);
    SortedKeysSorted(m.Keys);
    assert forall k | k in keys :: ValidAt(m, k);
    CollectEntries(keys, m);
    assert Restricted(keys, m) == m;
    if keys == [] {
      assert m == map[];
    } else {
      JoinedEntries(keys, m);
    }
  }

  /** Printed entries split into themselves again. */
  lemma JoinedEntries(keys: seq<string>, m: Mappings)
    requires keys != [] && forall k | k in keys :: k in m
    requires forall k | k in keys :: ValidAt(m, k)
    ensures Join(EntriesOf(keys, m), ',') != "" && Split(Join(EntriesOf(keys, m), ','), ',') == EntriesOf(keys, m)
  {
    EntriesPlain(keys, m);
    NonEmptyJoin(keys, m);
    SplitJoin(EntriesOf(keys, m), ',');
  }

  lemma NonEmptyJoin(keys: seq<string>, m: Mappings)
    requires keys != [] && forall k | k in keys :: k in m
    ensures Join(EntriesOf(keys, m), ',') != ""
  {
    var entries := EntriesOf(keys, m);
    EntryNonEmpty(keys, m, 0);
  }

  lemma {:induction false} EntryNonEmpty(keys: seq<string>, m: Mappings, i: nat)
    requires i < |keys| && forall k | k in keys :: k in m
    ensures EntriesOf(keys, m)[i] != ""
  {
    if i < |keys| - 1 { EntryNonEmpty(keys[..|keys| - 1], m, i); }
  }

  /** Reprinting a parsed value keeps its meaning. */
  lemma ReprintKeepsMeaning(raw: string)
    requires Parsed(raw).Some?
    ensures Parsed(Formatted(Parsed(raw).value)) == Parsed(raw)
  {
    ParsedIsValid(raw);
    RoundTrip(Parsed(raw).value);
  }

  // ---------------------------------------------------------------- the configured mapping

  type IDs = map<string, string>

  function RawOf(ids: IDs): string
  {
    if MAPPINGS_KEY in ids then ids[MAPPINGS_KEY] else ""
  }

  function MappingsOf(ids: IDs): Option<Mappings>
  {
    Parsed(RawOf(ids))
  }

  /** The physical network, the provider bridge and the key that records ownership of the mapping. */
  datatype Configured = Configured(physnet: string, bridge: string, digest: string)

  function OwnerKey(c: Configured): string
  {
    OWNER_PREFIX + c.digest
  }

  /** Neither the network nor the bridge is taken by someone else. */
  predicate Available(ids: IDs, m: Mappings, c: Configured)
  {
    && (c.physnet in m ==> m[c.physnet] == c.bridge)
    && (forall p | p in m && p != c.physnet :: m[p] != c.bridge)
    && (OwnerKey(c) in ids ==> ids[OwnerKey(c)] == c.bridge)
  }

  /** An empty value is removed rather than stored. */
  function Store(ids: IDs, m: Mappings): IDs
  {
    if m == map[] then ids - {MAPPINGS_KEY} else ids[MAPPINGS_KEY := Formatted(m)]
  }

  lemma Stored(ids: IDs, m: Mappings)
    requires ValidMappings(m)
    ensures MappingsOf(Store(ids, m)) == Some(m)
  {
    if m != map[] { RoundTrip(m); }
  }

  function AfterEnsure(ids: IDs, c: Configured): Option<IDs>
  {
    var m := MappingsOf(ids);
    if m.None? || !Available(ids, m.value, c) then None
    else if c.physnet in m.value then Some(ids)
    else Some(Store(ids, m.value[c.physnet := c.bridge])[OwnerKey(c) := c.bridge])
  }

  function AfterDelete(ids: IDs, c: Configured): Option<IDs>
  {
    if OwnerKey(c) !in ids then Some(ids)
    else if ids[OwnerKey(c)] != c.bridge then None
    else
      var m := MappingsOf(ids);
      if m.None? || (c.physnet in m.value && m.value[c.physnet] != c.bridge) then None
      else
        Some(Store(ids - {OwnerKey(c)}, m.value - {c.physnet}))
  }

  ghost predicate Untouched(before: IDs, after: IDs, c: Configured)
  {
    forall k | k != "ovn-bridge-mappings" && k != "evpn4ovn-model1-bridge-map-" + c.digest ::
      (k in before <==> k in after) && (k in before ==> before[k] == after[k])
  }

  lemma OwnerKeyDiffers(c: Configured)
    ensures OwnerKey(c) != MAPPINGS_KEY
  {
    assert OwnerKey(c)[0] == 'e' && MAPPINGS_KEY[0] == 'o';
  }

  lemma StoreTouches(ids: IDs, m: Mappings, c: Configured)
    requires ValidMappings(m)
    ensures var after := Store(ids, m)[OwnerKey(c) := c.bridge];
      MappingsOf(after) == Some(m) && Untouched(ids, after, c) && OwnerKey(c) in after
  {
    OwnerKeyDiffers(c);
    Stored(ids, m);
    assert RawOf(Store(ids, m)[OwnerKey(c) := c.bridge]) == RawOf(Store(ids, m));
  }

  /** The network is mapped to no other bridge, the bridge to no other network, and the mapping is recorded as
      nobody else's. */
  ghost predicate Free(ids: IDs, m: Mappings, c: Configured)
  {
    && (forall p | p in m :: p == c.physnet <==> m[p] == c.bridge)
    && (forall k | k in ids && k == "evpn4ovn-model1-bridge-map-" + c.digest :: ids[k] == c.bridge)
  }

  /** Ensuring is refused exactly when the stored value does not parse or the mapping is not free. */
  lemma EnsureRefusedIff(ids: IDs, c: Configured)
    ensures AfterEnsure(ids, c).None? <==> MappingsOf(ids).None? || !Free(ids, MappingsOf(ids).value, c)
  {
    var m := MappingsOf(ids);
    if m.Some? && Available(ids, m.value, c) {
      forall p | p in m.value ensures p == c.physnet <==> m.value[p] == c.bridge { }
    }
  }

  /** Deleting is refused exactly when somebody else owns the mapping, or we do and the stored value does not
      parse or maps the network to another bridge. */
  lemma DeleteRefusedIff(ids: IDs, c: Configured)
    ensures AfterDelete(ids, c).None? <==>
      var owner := "evpn4ovn-model1-bridge-map-" + c.digest;
      owner in ids && (ids[owner] != c.bridge || MappingsOf(ids).None?
                       || (c.physnet in MappingsOf(ids).value && MappingsOf(ids).value[c.physnet] != c.bridge))
  {
  }

  /** Ensuring adds exactly the configured mapping, and records ownership only when it added it. */
  lemma EnsureMeaning(ids: IDs, c: Configured)
    requires ValidMapping(c.physnet, c.bridge) && AfterEnsure(ids, c).Some?
    ensures var after, m := AfterEnsure(ids, c).value, MappingsOf(ids).value;
      && MappingsOf(after) == Some(m[c.physnet := c.bridge]) && Untouched(ids, after, c)
      && (OwnerKey(c) in after <==> OwnerKey(c) in ids || c.physnet !in m)
  {
    ParsedIsValid(RawOf(ids));
    var m := MappingsOf(ids).value;
    if c.physnet in m {
      SetThenRemove(m, c.physnet, c.bridge);
    } else {
      StoreTouches(ids, m[c.physnet := c.bridge], c);
    }
  }

  /** Deleting touches nothing without recorded ownership, and otherwise removes exactly the
      configured mapping together with the record. */
  lemma DeleteMeaning(ids: IDs, c: Configured)
    requires AfterDelete(ids, c).Some?
    ensures var after := AfterDelete(ids, c).value;
      && Untouched(ids, after, c) && OwnerKey(c) !in after
      && (OwnerKey(c) !in ids ==> after == ids)
      && (OwnerKey(c) in ids ==>
            MappingsOf(ids).Some? && MappingsOf(after) == Some(MappingsOf(ids).value - {c.physnet}))
  {
    OwnerKeyDiffers(c);
    if OwnerKey(c) in ids {
      ParsedIsValid(RawOf(ids));
      Stored(ids - {OwnerKey(c)}, MappingsOf(ids).value - {c.physnet});
    }
  }

  lemma EnsuredIsDeletable(ids: IDs, c: Configured)
    requires ValidMapping(c.physnet, c.bridge) && AfterEnsure(ids, c).Some?
    ensures AfterDelete(AfterEnsure(ids, c).value, c).Some?
  {
    OwnerKeyDiffers(c);
    EnsureMeaning(ids, c);
  }

  lemma SetThenRemove(m: Mappings, physnet: string, bridge: string)
    ensures m[physnet := bridge] - {physnet} == m - {physnet}
    ensures physnet in m && m[physnet] == bridge ==> m[physnet := bridge] == m
  {
    assert (m[physnet := bridge] - {physnet}).Keys == (m - {physnet}).Keys;
  }

  lemma UntouchedTransitive(a: IDs, b: IDs, d: IDs, c: Configured)
    requires Untouched(a, b, c) && Untouched(b, d, c)
    ensures Untouched(a, d, c)
  {
  }

  /** Ensure then delete: every other mapping stays, and the configured one survives exactly when
      it was there before without our ownership. */
  lemma EnsureThenDelete(ids: IDs, c: Configured)
    requires ValidMapping(c.physnet, c.bridge) && AfterEnsure(ids, c).Some?
    ensures AfterDelete(AfterEnsure(ids, c).value, c).Some?
    ensures
      var m, after := MappingsOf(ids).value, AfterDelete(AfterEnsure(ids, c).value, c).value;
      && Untouched(ids, after, c) && OwnerKey(c) !in after && MappingsOf(after).Some?
      && MappingsOf(after).value == if c.physnet in m && OwnerKey(c) !in ids then m else m - {c.physnet}
  {
    var m, mid := MappingsOf(ids).value, AfterEnsure(ids, c).value;
    EnsureMeaning(ids, c);
    EnsuredIsDeletable(ids, c);
    DeleteMeaning(mid, c);
    UntouchedTransitive(ids, mid, AfterDelete(mid, c).value, c);
    SetThenRemove(m, c.physnet, c.bridge);
  }

  /** The Open_vSwitch root row. */
  class RootRow {
    var externalIDs: IDs

    /** One transaction; an error leaves open whether it took effect. */
    method Transact(next: IDs) returns (ok: bool)
      modifies this
      ensures externalIDs == next || (!ok && externalIDs == old(externalIDs))
    {
      var landed: bool := *;
      ok := *;
      if ok || landed { externalIDs := next; }
    }

    /** `provisioned` stands for the tests of the bridge and of the single root row. */
    method EnsureMapping(c: Configured, provisioned: bool) returns (ok: bool)
      requires ValidMapping(c.physnet, c.bridge)
      modifies this
      ensures !provisioned || AfterEnsure(old(externalIDs), c).None? ==> !ok && externalIDs == old(externalIDs)
      ensures ok ==> AfterEnsure(old(externalIDs), c) == Some(externalIDs)
      ensures externalIDs == old(externalIDs) || AfterEnsure(old(externalIDs), c) == Some(externalIDs)
    {
      if !provisioned { return false; }
      var m := Parse(RawOf(externalIDs));
      if m.None? || !Available(externalIDs, m.value, c) { return false; }
      if c.physnet in m.value { return true; }
      var raw := Format(m.value[c.physnet := c.bridge]);
      ok := Transact(externalIDs[MAPPINGS_KEY := raw][OwnerKey(c) := c.bridge]);
    }

    method DeleteMapping(c: Configured, readable: bool) returns (ok: bool)
      modifies this
      ensures !readable || AfterDelete(old(externalIDs), c).None? ==> !ok && externalIDs == old(externalIDs)
      ensures ok ==> AfterDelete(old(externalIDs), c) == Some(externalIDs)
      ensures externalIDs == old(externalIDs) || AfterDelete(old(externalIDs), c) == Some(externalIDs)
    {
      if !readable { return false; }
      if OwnerKey(c) !in externalIDs { return true; }
      if externalIDs[OwnerKey(c)] != c.bridge { return false; }
      var m := Parse(RawOf(externalIDs));
      if m.None? || (c.physnet in m.value && m.value[c.physnet] != c.bridge) { return false; }
      var rest := m.value - {c.physnet};
      var less := externalIDs - {OwnerKey(c)};
      if rest == map[] {
        ok := Transact(less - {MAPPINGS_KEY});
      } else {
        var raw := Format(rest);
        ok := Transact(less[MAPPINGS_KEY := raw]);
      }
    }
  }
}

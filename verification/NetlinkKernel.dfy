/** The kernel tables that survive the importer process. `mine` holds the entries the importer
    created, `others` everyone else's. */
module NetlinkKernel {
  import opened Basics
  import opened NetlinkReceipts

  datatype Outcome = Done | Rejected | Unknown

  /** One link per name, and no interface index twice. */
  ghost predicate LinksOk(links: map<string, Device>)
  {
    && (forall name | name in links :: links[name].name == name && links[name].ifindex > 0)
    && (forall a, b | a in links && b in links && links[a].ifindex == links[b].ifindex :: a == b)
  }

  /** Linux derives the type of a neighbor, so a neighbor never reads back with type zero. */
  predicate Typed(e: Entry)
  {
    e.family != Bridge ==> e.kind != 0
  }

  ghost predicate TypedAt(mine: set<Entry>, others: set<Entry>, e: Entry)
  {
    e in mine || e in others ==> Typed(e)
  }

  ghost function InSlot(entries: set<Entry>, want: Entry): set<Entry>
  {
    set e | e in entries && SameSlot(e, want)
  }

  ghost predicate AloneAt(mine: set<Entry>, others: set<Entry>, e: Entry, f: Entry)
  {
    e in mine && (f in mine || f in others) && SameSlot(e, f) ==> e == f
  }

  /** Each of our entries is the only entry in its slot: no slot has two owners. */
  ghost predicate Alone(mine: set<Entry>, others: set<Entry>)
  {
    forall e, f :: AloneAt(mine, others, e, f)
  }

  lemma AloneAfterAdd(mine: set<Entry>, others: set<Entry>, request: Entry, stored: Entry)
    requires Alone(mine, others) && InSlot(mine + others, request) == {} && SameSlot(stored, request)
    ensures Alone(mine + {stored}, others)
  {
    var more := mine + {stored};
    forall e, f ensures AloneAt(more, others, e, f) {
      assert AloneAt(mine, others, e, f);
      assert e !in InSlot(mine + others, request) && f !in InSlot(mine + others, request);
    }
  }

  lemma AloneShrinks(mine: set<Entry>, others: set<Entry>, mine': set<Entry>, others': set<Entry>)
    requires Alone(mine, others) && mine' <= mine && others' <= others
    ensures Alone(mine', others')
  {
    forall e, f ensures AloneAt(mine', others', e, f) { assert AloneAt(mine, others, e, f); }
  }

  class Kernel {
    var mine: set<Entry>
    var others: set<Entry>
    /** Whether anyone else writes to the tables. */
    const foreign: bool
    const links: map<string, Device>

    ghost predicate Valid()
      reads this
    {
      mine !! others && LinksOk(links) && forall e :: TypedAt(mine, others, e)
    }

    constructor (others: set<Entry>, foreign: bool, links: map<string, Device>)
      requires LinksOk(links) && forall e | e in others :: Typed(e)
      ensures Valid() && mine == {} && this.others == others && this.foreign == foreign && this.links == links
    {
      mine, this.others, this.foreign, this.links := {}, others, foreign, links;
    }

    function Visible(): set<Entry>
      reads this
    {
      mine + others
    }

    method Drift()
      requires Valid()
      modifies this
      ensures Valid() && mine <= old(mine)
      ensures !foreign ==> mine == old(mine) && others == old(others)
    {
      if foreign {
        var removed: set<Entry> := *;
        var theirs: set<Entry> := *;
        mine := mine - removed;
        others := (set e | e in theirs && Typed(e)) - mine;
      }
      forall e ensures TypedAt(mine, others, e) { assert TypedAt(old(mine), old(others), e); }
    }

    /** A failing lookup also stands for any change of the link's identity. */
    method Link(name: string) returns (d: Option<Device>)
      ensures d.Some? ==> name in links && d.value == links[name]
    {
      var ok: bool := *;
      d := if ok && name in links then Some(links[name]) else None;
    }

    method List(ifindex: int, family: Family) returns (found: Option<set<Entry>>)
      requires Valid()
      modifies this
      ensures Valid() && mine <= old(mine)
      ensures !foreign ==> mine == old(mine) && others == old(others)
      ensures found.Some? ==> found.value == set e | e in Visible() && e.ifindex == ifindex && e.family == family
    {
      Drift();
      var ok: bool := *;
      found := if ok then Some(set e | e in Visible() && e.ifindex == ifindex && e.family == family) else None;
    }

    /** Exclusive creation. The kernel may complete fields of the request, and an error other
        than a definitive rejection leaves open whether the entry exists. */
    method Add(request: Entry) returns (outcome: Outcome, ghost stored: Option<Entry>)
      requires Valid()
      modifies this
      ensures Valid()
      ensures stored.Some? ==> SameSlot(stored.value, request) && stored.value in mine
      ensures mine <= old(mine) + (if stored.Some? then {stored.value} else {})
      ensures !foreign ==>
        mine == old(mine) + (if stored.Some? then {stored.value} else {}) && others == old(others)
      ensures outcome.Done? ==> stored.Some?
      ensures outcome.Rejected? ==> stored.None?
    {
      Drift();
      var created: bool, e: Entry, answered: bool := *, *, *;
      stored := None;
      if created && SameSlot(e, request) && Typed(e) && e !in Visible() {
        forall x ensures TypedAt(mine + {e}, others, x) { assert TypedAt(mine, others, x); }
        mine, stored := mine + {e}, Some(e);
        outcome := if answered then Done else Unknown;
      } else {
        outcome := if answered then Rejected else Unknown;
      }
    }

    method Delete(e: Entry) returns (outcome: Outcome, ghost gone: bool)
      requires Valid()
      modifies this
      ensures Valid() && mine <= old(mine) && (gone ==> e !in Visible())
      ensures !foreign ==> mine == old(mine) - (if gone then {e} else {})
      ensures !foreign ==> others == old(others) - (if gone then {e} else {})
      ensures outcome.Done? ==> gone
      ensures outcome.Rejected? ==> !gone
    {
      Drift();
      var deleted: bool, answered: bool := *, *;
      gone := deleted;
      if deleted {
        forall x ensures TypedAt(mine - {e}, others - {e}, x) { assert TypedAt(mine, others, x); }
        mine, others := mine - {e}, others - {e};
        outcome := if answered then Done else Unknown;
      } else {
        outcome := if answered then Rejected else Unknown;
      }
    }
  }
}

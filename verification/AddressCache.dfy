/** The MoNA addresses a provider keeps for the members of its group, and hands
    to its pipelines in the order of the member identifiers. */
module AddressCache {
  import opened Words
  import opened GroupHash

  type Address = string

  // ----- The order of a std::map -----

  lemma {:induction false} HasLeast(ids: set<Id>)
    requires ids != {}
    ensures exists x :: x in ids && IsLeast(ids, x)
  {
    var y :| y in ids;
    if ids == {y} {
      assert IsLeast(ids, y);
    } else {
      HasLeast(ids - {y});
      var z :| z in ids - {y} && IsLeast(ids - {y}, z);
      var least := if y < z then y else z;
      forall w | w in ids
        ensures least <= w
      {
        assert w == y || w in ids - {y};
      }
      assert IsLeast(ids, least);
    }
  }

  predicate IsLeast(ids: set<Id>, x: Id) {
    forall y :: y in ids ==> x <= y
  }

  /** The identifiers in increasing order. */
  function Sorted(ids: set<Id>): seq<Id> {
    if ids == {} then [] else
      HasLeast(ids);
      var x :| x in ids && IsLeast(ids, x);
      [x] + Sorted(ids - {x})
  }

  ghost predicate IsOrderOf(order: seq<Id>, ids: set<Id>) {
    && (forall x :: x in order <==> x in ids)
    && (forall i, j :: 0 <= i < j < |order| ==> order[i] < order[j])
  }

  lemma {:induction false} SortedIsAnOrder(ids: set<Id>)
    ensures IsOrderOf(Sorted(ids), ids)
  {
    if ids != {} {
      HasLeast(ids);
      var x :| x in ids && IsLeast(ids, x) && Sorted(ids) == [x] + Sorted(ids - {x});
      SortedIsAnOrder(ids - {x});
      LeastInFront(ids, x, Sorted(ids - {x}));
    }
  }

  lemma {:induction false} LeastInFront(ids: set<Id>, x: Id, rest: seq<Id>)
    requires x in ids && IsLeast(ids, x) && IsOrderOf(rest, ids - {x})
    ensures IsOrderOf([x] + rest, ids)
  {
    forall i | 0 <= i < |rest|
      ensures x < rest[i]
    {
      assert rest[i] in rest && rest[i] in ids - {x};
    }
    forall y
      ensures y in [x] + rest <==> y in ids
    {
      assert y in rest <==> y in ids - {x};
    }
  }

  /** Sorted is the one strictly increasing list of its members. */
  lemma {:induction false} SortedIsTheOrder(ids: set<Id>, order: seq<Id>)
    requires IsOrderOf(order, ids)
    ensures order == Sorted(ids)
    decreases ids
  {
    assert |order| > 0 ==> order[0] in order;
    if ids != {} {
      HasLeast(ids);
      var x :| x in ids && IsLeast(ids, x) && Sorted(ids) == [x] + Sorted(ids - {x});
      LeastIsFirst(order, x);
      SortedIsTheOrder(ids - {x}, order[1..]);
    }
  }

  lemma {:induction false} LeastIsFirst(order: seq<Id>, x: Id)
    requires x in order && (forall y :: y in order ==> x <= y)
    requires forall i, j :: 0 <= i < j < |order| ==> order[i] < order[j]
    ensures order == [x] + order[1..]
    ensures forall y :: y in order[1..] <==> y in order && y != x
  {
    assert order[0] in order;
    var i :| 0 <= i < |order| && order[i] == x;
    assert i == 0;
  }

  /** What the program pushes onto a vector when it walks the map. */
  function Ordered(addresses: map<Id, Address>): seq<Address> {
    seq(|Sorted(addresses.Keys)|, i requires 0 <= i < |Sorted(addresses.Keys)| =>
      SortedMembers(addresses.Keys);
      addresses[Sorted(addresses.Keys)[i]])
  }

  lemma {:induction false} SortedMembers(ids: set<Id>)
    ensures forall i :: 0 <= i < |Sorted(ids)| ==> Sorted(ids)[i] in ids
  {
    SortedIsAnOrder(ids);
    assert forall i :: 0 <= i < |Sorted(ids)| ==> Sorted(ids)[i] in Sorted(ids);
  }

  /** These are the addresses of those members, in that order. */
  ghost predicate Lists(addresses: seq<Address>, order: seq<Id>, addressOf: Id -> Address) {
    |addresses| == |order| && forall i :: 0 <= i < |order| ==> addresses[i] == addressOf(order[i])
  }

  lemma {:induction false} OrderedLists(addresses: map<Id, Address>, addressOf: Id -> Address)
    requires forall id :: id in addresses ==> addresses[id] == addressOf(id)
    ensures forall order :: IsOrderOf(order, addresses.Keys) ==> Lists(Ordered(addresses), order, addressOf)
  {
    SortedMembers(addresses.Keys);
    forall order | IsOrderOf(order, addresses.Keys)
      ensures Lists(Ordered(addresses), order, addressOf)
    {
      SortedIsTheOrder(addresses.Keys, order);
    }
  }

  // ----- The rotated loop -----

  lemma {:induction false} Wrap(x: nat, n: nat)
    requires 0 < n && x < 2 * n
    ensures x % n == if x < n then x else x - n
  {
    if x >= n {
      assert x == n + (x - n);
    }
  }

  /** A provider begins with its own rank and goes up, from the last rank on to rank 0. */
  lemma {:induction false} RotationGoesUp(selfRank: nat, n: nat, i: nat)
    requires selfRank < n && i < n
    ensures Visits(selfRank, n, i) == if selfRank + i < n then selfRank + i else selfRank + i - n
  {
    Wrap(selfRank + i, n);
  }

  /** In this it visits every rank exactly once. */
  lemma {:induction false} RotationVisitsEachOnce(selfRank: nat, n: nat, rank: nat)
    requires selfRank < n && rank < n
    ensures exists i :: 0 <= i < n && Visits(selfRank, n, i) == rank
    ensures forall i, j :: 0 <= i < n && 0 <= j < n && Visits(selfRank, n, i) == rank == Visits(selfRank, n, j) ==>
        i == j
  {
    forall i | 0 <= i < n
      ensures Visits(selfRank, n, i) == if selfRank + i < n then selfRank + i else selfRank + i - n
    {
      RotationGoesUp(selfRank, n, i);
    }
    var i := if rank >= selfRank then rank - selfRank else rank + n - selfRank;
    assert Visits(selfRank, n, i) == rank;
  }

  function Visits(selfRank: nat, n: nat, i: nat): (j: nat)
    requires n > 0
    ensures j < n
  {
    (selfRank + i) % n
  }

  /** The address part of a provider. */
  class Addresses {
    var m_mona_addresses: map<Id, Address>
    /** The addresses that each installed pipeline was given last. */
    var m_received: map<string, seq<Address>>
    /** The address every member answers when asked. */
    const addressOf: Id -> Address

    /** The cache holds the members' own addresses. */
    ghost predicate CacheOk()
      reads this
    {
      forall id :: id in m_mona_addresses ==> m_mona_addresses[id] == addressOf(id)
    }

    /** Every installed pipeline was last given the addresses of the cache. */
    ghost predicate Valid()
      reads this
    {
      && CacheOk()
      && forall name :: name in m_received ==> m_received[name] == Ordered(m_mona_addresses)
    }

    /** Every installed pipeline was last given the addresses of the members whose
        keys are in the cache, in increasing order of their identifiers. */
    ghost predicate AllTold()
      reads this
    {
      forall name, order :: name in m_received && IsOrderOf(order, m_mona_addresses.Keys) ==>
          Lists(m_received[name], order, addressOf)
    }

    constructor (addressOf: Id -> Address)
      ensures Valid() && m_mona_addresses == map[] && m_received == map[] && this.addressOf == addressOf
    {
      this.addressOf := addressOf;
      m_mona_addresses := map[];
      m_received := map[];
    }

    /** _resolveMonaAddresses over a snapshot of the group, before any pipeline
        is installed: the cache then covers the snapshot. */
    method Resolve(memberIds: seq<Id>, selfRank: nat)
      requires CacheOk() && m_received == map[] && selfRank < |memberIds|
      modifies this`m_mona_addresses
      ensures Valid() && m_mona_addresses.Keys == old(m_mona_addresses.Keys) + Members(memberIds)
    {
      var n := |memberIds|;
      var found: map<Id, Address> := map[];
      for i := 0 to n
        invariant m_mona_addresses == old(m_mona_addresses)
        invariant forall id :: id in found ==> id in memberIds && found[id] == addressOf(id)
        invariant forall k :: 0 <= k < i ==>
                    memberIds[Visits(selfRank, n, k)] in m_mona_addresses.Keys + found.Keys
      {
        var id := memberIds[Visits(selfRank, n, i)];
        if id !in m_mona_addresses {
          found := found[id := addressOf(id)];
        }
      }
      forall rank | 0 <= rank < n
        ensures memberIds[rank] in m_mona_addresses.Keys + found.Keys
      {
        RotationVisitsEachOnce(selfRank, n, rank);
        var k :| 0 <= k < n && Visits(selfRank, n, k) == rank;
      }
      m_mona_addresses := m_mona_addresses + found;
    }

    /** Every installed pipeline is given the current addresses. */
    method UpdatePipelines()
      requires CacheOk()
      modifies this`m_received
      ensures Valid() && m_received.Keys == old(m_received).Keys
      ensures AllTold()
    {
      var addresses := Snapshot();
      var names := m_received.Keys;
      while names != {}
        invariant CacheOk() && m_received.Keys == old(m_received).Keys && names <= m_received.Keys
        invariant forall name :: name in m_received && name !in names ==> m_received[name] == addresses
        decreases |names|
      {
        var name :| name in names;
        m_received := m_received[name := addresses];
        names := names - {name};
      }
      OrderedLists(m_mona_addresses, addressOf);
    }

    /** The loop that walks the map in key order. */
    method Snapshot() returns (addresses: seq<Address>)
      requires CacheOk()
      ensures addresses == Ordered(m_mona_addresses)
      ensures forall order :: IsOrderOf(order, m_mona_addresses.Keys) ==> Lists(addresses, order, addressOf)
    {
      OrderedLists(m_mona_addresses, addressOf);
      addresses := [];
      var keys := Sorted(m_mona_addresses.Keys);
      SortedMembers(m_mona_addresses.Keys);
      for i := 0 to |keys|
        invariant |addresses| == i && forall j :: 0 <= j < i ==> addresses[j] == m_mona_addresses[keys[j]]
      {
        addresses := addresses + [m_mona_addresses[keys[i]]];
      }
    }

    /** _membershipUpdate: the keys of the cache follow the event as the
        membership did, and every pipeline is told. */
    method MembershipUpdate(c: Change)
      requires CacheOk()
      modifies this
      ensures Valid() && m_mona_addresses.Keys == After(old(m_mona_addresses.Keys), [c])
      ensures m_received.Keys == old(m_received).Keys && AllTold()
    {
      AfterOne(m_mona_addresses.Keys, c);
      if c.Joined? {
        m_mona_addresses := m_mona_addresses[c.id := addressOf(c.id)];
      } else {
        m_mona_addresses := m_mona_addresses - {c.id};
      }
      UpdatePipelines();
    }

    /** The end of _createPipeline: the backend was given `addresses`, taken from
        the cache a moment ago, and is now installed.  All pipelines are up to
        date exactly when the addresses did not change in between. */
    method Install(name: string, addresses: seq<Address>)
      requires Valid()
      modifies this`m_received
      ensures CacheOk() && m_received == old(m_received)[name := addresses]
      ensures Valid() <==> addresses == Ordered(m_mona_addresses)
    {
      m_received := m_received[name := addresses];
      assert m_received[name] == addresses;
    }
  }
}

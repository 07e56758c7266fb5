/** The group hash: the exclusive-or of the member identifiers, computed from
    scratch by ComputeGroupHash and kept up to date by UpdateGroupHash. */
module GroupHash {
  import opened Words

  /** An SSG member identifier (ssg_member_id_t), a 64-bit word. */
  type Id = u64

  datatype Change = Joined(id: Id) | Departed(id: Id)

  function XorAll(ids: seq<Id>): u64 {
    if ids == [] then 0 else Xor(XorAll(ids[..|ids| - 1]), ids[|ids| - 1])
  }

  ghost predicate Distinct(ids: seq<Id>) {
    forall i, j :: 0 <= i < j < |ids| ==> ids[i] != ids[j]
  }

  function Members(ids: seq<Id>): set<Id> {
    set x | x in ids
  }

  /** The hash of a membership, without reference to any order of its members. */
  ghost function SetHash(members: set<Id>): u64 {
    if members == {} then 0 else
      var x :| x in members;
      Xor(SetHash(members - {x}), x)
  }

  function Toggle(members: set<Id>, x: Id): set<Id> {
    if x in members then members - {x} else members + {x}
  }

  function SymmetricDifference(a: set<Id>, b: set<Id>): set<Id> {
    (a - b) + (b - a)
  }

  /** ComputeGroupHash over the member identifiers in rank order. */
  method ComputeGroupHash(memberIds: seq<Id>) returns (hash: u64)
    requires Distinct(memberIds)
    ensures hash == SetHash(Members(memberIds))
  {
    hash := 0;
    for i := 0 to |memberIds|
      invariant hash == XorAll(memberIds[..i])
    {
      assert memberIds[..i + 1][..i] == memberIds[..i];
      hash := Xor(hash, memberIds[i]);
    }
    assert memberIds[..|memberIds|] == memberIds;
    XorAllIsSetHash(memberIds);
  }

  function UpdateGroupHash(hash: u64, id: Id): u64 {
    Xor(hash, id)
  }

  // ----- The hash of a set does not depend on the order of its members -----

  lemma {:induction false} SetHashRemove(members: set<Id>, x: Id)
    requires x in members
    ensures SetHash(members) == Xor(SetHash(members - {x}), x)
    decreases members
  {
    var y :| y in members && SetHash(members) == Xor(SetHash(members - {y}), y);
    if y != x {
      var rest := members - {x, y};
      assert members - {y} - {x} == rest == members - {x} - {y};
      SetHashRemove(members - {y}, x);
      SetHashRemove(members - {x}, y);
      XorSwap(SetHash(rest), x, y);
    }
  }

  lemma {:induction false} SetHashToggle(members: set<Id>, x: Id)
    ensures SetHash(Toggle(members, x)) == UpdateGroupHash(SetHash(members), x)
  {
    if x in members {
      SetHashRemove(members, x);
      XorCancels(SetHash(members - {x}), x);
    } else {
      SetHashRemove(members + {x}, x);
      assert members + {x} - {x} == members;
    }
  }

  lemma {:induction false} FrontOfDistinct(ids: seq<Id>)
    requires Distinct(ids) && ids != []
    ensures Members(ids) - {ids[|ids| - 1]} == Members(ids[..|ids| - 1])
    ensures Distinct(ids[..|ids| - 1])
  {
    var front, last := ids[..|ids| - 1], ids[|ids| - 1];
    assert ids == front + [last];
    assert last !in front;
  }

  lemma {:induction false} XorAllIsSetHash(ids: seq<Id>)
    requires Distinct(ids)
    ensures XorAll(ids) == SetHash(Members(ids))
  {
    if ids == [] {
      assert Members(ids) == {};
    } else {
      FrontOfDistinct(ids);
      XorAllIsSetHash(ids[..|ids| - 1]);
      SetHashRemove(Members(ids), ids[|ids| - 1]);
    }
  }

  function WithBit(members: set<Id>, n: nat): set<Id> {
    set x | x in members && Bit(x, n) == 1
  }

  lemma {:induction false} WithBitCount(members: set<Id>, y: Id, n: nat)
    requires y in members
    ensures |WithBit(members, n)| == |WithBit(members - {y}, n)| + Bit(y, n)
  {
    var rest := WithBit(members - {y}, n);
    assert y !in rest;
    assert WithBit(members, n) == if Bit(y, n) == 1 then rest + {y} else rest;
  }

  /** Bit n of the hash tells whether an odd number of members have that bit. */
  lemma {:induction false} HashIsParity(members: set<Id>, n: nat)
    ensures Bit(SetHash(members), n) == |WithBit(members, n)| % 2
    decreases members
  {
    if members == {} {
      ZeroBit(n);
      assert WithBit(members, n) == {};
    } else {
      var y :| y in members;
      HashIsParity(members - {y}, n);
      SetHashRemove(members, y);
      XorBitsBit(SetHash(members - {y}), y, n);
      WithBitCount(members, y, n);
      ParityOfSum(|WithBit(members - {y}, n)|, Bit(y, n));
    }
  }

  lemma {:induction false} ParityOfSum(n: nat, bit: nat)
    requires bit < 2
    ensures (n + bit) % 2 == if n % 2 == bit then 0 else 1
  {
  }

  lemma {:induction false} ZeroBit(n: nat)
    ensures Bit(0, n) == 0
  {
    if n > 0 { ZeroBit(n - 1); }
  }

  // ----- What comparing two hashes decides -----

  lemma {:induction false} HashOfDifference(a: set<Id>, b: set<Id>)
    ensures Xor(SetHash(a), SetHash(b)) == SetHash(SymmetricDifference(a, b))
    decreases b
  {
    if b == {} {
      assert SymmetricDifference(a, b) == a;
    } else {
      var x :| x in b;
      HashOfDifference(a, b - {x});
      SetHashRemove(b, x);
      XorAssociative(SetHash(a), SetHash(b - {x}), x);
      var smaller := SymmetricDifference(a, b - {x});
      SetHashToggle(smaller, x);
      assert Toggle(smaller, x) == SymmetricDifference(a, b);
    }
  }

  lemma {:induction false} EqualHashes(view: set<Id>, members: set<Id>)
    ensures SetHash(view) == SetHash(members) <==> SetHash(SymmetricDifference(view, members)) == 0
  {
    HashOfDifference(view, members);
    XorZeroIffEqual(SetHash(view), SetHash(members));
  }

  /** A view is accepted exactly when the identifiers in which it differs from
      the membership cancel; so one differing member (with a nonzero
      identifier) or two differing members are always noticed. */
  lemma {:induction false} HashCheckDecides(view: set<Id>, members: set<Id>)
    ensures SetHash(view) == SetHash(members) <==> SetHash(SymmetricDifference(view, members)) == 0
    ensures forall x :: SymmetricDifference(view, members) == {x} && x != 0 ==> SetHash(view) != SetHash(members)
    ensures |SymmetricDifference(view, members)| == 2 ==> SetHash(view) != SetHash(members)
  {
    var d := SymmetricDifference(view, members);
    EqualHashes(view, members);
    forall x | d == {x} && x != 0
      ensures SetHash(view) != SetHash(members)
    {
      SetHashRemove(d, x);
      assert d - {x} == {};
      assert Xor(0, x) == x;
    }
    if |d| == 2 {
      var x :| x in d;
      assert |d - {x}| == 1;
      var y :| y in d - {x};
      SetHashRemove(d, x);
      SetHashRemove(d - {x}, y);
      assert |d - {x} - {y}| == 0;
      assert Xor(0, y) == y;
      XorZeroIffEqual(y, x);
    }
  }

  /** Three differing members can cancel: the check then accepts a wrong view. */
  lemma {:induction false} ThreeMembersCanCancel()
    ensures SetHash({1, 2, 3}) == SetHash({})
  {
    var one: Id, two: Id, three: Id := 1, 2, 3;
    SetHashRemove({one, two, three}, three);
    assert {one, two, three} - {three} == {one, two};
    SetHashRemove({one, two}, two);
    assert {one, two} - {two} == {one};
    SetHashRemove({one}, one);
    assert {one} - {one} == {};
    assert Xor(Xor(one, two), three) == 0;
  }

  // ----- Incremental updates refine recomputation -----

  ghost predicate ValidTrace(members: set<Id>, trace: seq<Change>)
    decreases |trace|
  {
    trace == [] ||
    (match trace[0]
     case Joined(x) => x !in members && ValidTrace(members + {x}, trace[1..])
     case Departed(x) => x in members && ValidTrace(members - {x}, trace[1..]))
  }

  function After(members: set<Id>, trace: seq<Change>): set<Id>
    decreases |trace|
  {
    if trace == [] then members else
    match trace[0]
    case Joined(x) => After(members + {x}, trace[1..])
    case Departed(x) => After(members - {x}, trace[1..])
  }

  function FoldHash(hash: u64, trace: seq<Change>): u64
    decreases |trace|
  {
    if trace == [] then hash else FoldHash(UpdateGroupHash(hash, trace[0].id), trace[1..])
  }

  function Subjects(trace: seq<Change>): seq<Id> {
    seq(|trace|, i requires 0 <= i < |trace| => trace[i].id)
  }

  /** After any valid trace of joins and leaves, the hash updated once per event
      is the hash recomputed from the membership. */
  lemma {:induction false} IncrementalHashIsRecomputed(members: set<Id>, trace: seq<Change>)
    requires ValidTrace(members, trace)
    ensures FoldHash(SetHash(members), trace) == SetHash(After(members, trace))
    decreases |trace|
  {
    if trace != [] {
      var x := trace[0].id;
      SetHashToggle(members, x);
      IncrementalHashIsRecomputed(Toggle(members, x), trace[1..]);
    }
  }

  lemma {:induction false} MembershipByParity(members: set<Id>, trace: seq<Change>, x: Id)
    requires ValidTrace(members, trace)
    ensures x in After(members, trace) <==> (x in members) != (multiset(Subjects(trace))[x] % 2 == 1)
    decreases |trace|
  {
    if trace != [] {
      var y := trace[0].id;
      MembershipByParity(Toggle(members, y), trace[1..], x);
      assert Subjects(trace) == [y] + Subjects(trace[1..]);
    } else {
      assert Subjects(trace) == [];
    }
  }

  /** What the last event of a trace about x says: that it is a member or not. */
  function LastOf(trace: seq<Change>, x: Id): Option<bool> {
    if trace == [] then None
    else
      var last := trace[|trace| - 1];
      if last.id == x then Some(last.Joined?) else LastOf(trace[..|trace| - 1], x)
  }

  lemma {:induction false} AfterSnoc(members: set<Id>, trace: seq<Change>, c: Change)
    ensures After(members, trace + [c]) == After(After(members, trace), [c])
    decreases |trace|
  {
    if trace == [] {
      assert trace + [c] == [c];
    } else {
      assert (trace + [c])[1..] == trace[1..] + [c];
      AfterOne(members, trace[0]);
      AfterSnoc(After(members, [trace[0]]), trace[1..], c);
    }
  }

  lemma {:induction false} AfterOne(members: set<Id>, c: Change)
    ensures After(members, [c]) == if c.Joined? then members + {c.id} else members - {c.id}
  {
    assert [c][1..] == [];
  }

  /** The last event about x decides whether it is a member afterwards. */
  lemma {:induction false} AfterByLast(members: set<Id>, trace: seq<Change>, x: Id)
    ensures x in After(members, trace) <==> if LastOf(trace, x).Some? then LastOf(trace, x).value else x in members
    decreases |trace|
  {
    if trace != [] {
      var front, last := trace[..|trace| - 1], trace[|trace| - 1];
      assert trace == front + [last];
      AfterSnoc(members, front, last);
      AfterOne(After(members, front), last);
      AfterByLast(members, front, x);
    }
  }

  /** Two providers that saw the same events in different orders agree, on the
      membership and on the hash. */
  lemma {:induction false} DeliveryOrderIsIrrelevant(members: set<Id>, t1: seq<Change>, t2: seq<Change>)
    requires ValidTrace(members, t1) && ValidTrace(members, t2)
    requires multiset(Subjects(t1)) == multiset(Subjects(t2))
    ensures After(members, t1) == After(members, t2)
    ensures FoldHash(SetHash(members), t1) == FoldHash(SetHash(members), t2)
  {
    forall x
      ensures x in After(members, t1) <==> x in After(members, t2)
    {
      MembershipByParity(members, t1, x);
      MembershipByParity(members, t2, x);
    }
    assert After(members, t1) == After(members, t2);
    IncrementalHashIsRecomputed(members, t1);
    IncrementalHashIsRecomputed(members, t2);
  }
}

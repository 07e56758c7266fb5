/** The elastic group: providers that join and leave, the membership updates on
    their way to the others, and what a client that starts an iteration on all
    of them can rely on. */
module Elastic {
  import opened Words
  import opened GroupHash
  import opened ProviderSpec
  import opened ProviderRuns

  /** A provider, its member identifier, the updates it was not told yet, and the
      members it keeps an address of; `resolved` once it asked for the addresses
      of the group that it found. */
  datatype Server = Server(id: Id, prov: Provider, inbox: seq<Change>, keys: set<Id>, resolved: bool)

  /** `budget` bounds the membership events still to come. */
  datatype System = System(servers: seq<Server>, budget: nat)

  datatype Move =
    | At(s: nat, e: Event)
    | Join(id: Id)
    | Deliver(s: nat, n: nat)
    | Resolve(s: nat)

  /** The member identifiers in rank order. */
  function MemberIds(servers: seq<Server>): seq<Id> {
    if servers == [] then [] else
      var last := servers[|servers| - 1];
      MemberIds(servers[..|servers| - 1]) + if last.prov.left then [] else [last.id]
  }

  function Group(servers: seq<Server>): set<Id> {
    Members(MemberIds(servers))
  }

  function ViewHash(servers: seq<Server>): u64 {
    XorAll(MemberIds(servers))
  }

  /** A membership event is announced to every member but its subject. */
  function Announce(servers: seq<Server>, c: Change): seq<Server> {
    seq(|servers|, i requires 0 <= i < |servers| => Told(servers[i], c))
  }

  function Told(v: Server, c: Change): Server {
    if v.prov.left then v else v.(inbox := v.inbox + [c])
  }

  function Without(inbox: seq<Change>, n: nat): seq<Change>
    requires n < |inbox|
  {
    inbox[..n] + inbox[n + 1..]
  }

  /** Announcements about one member arrive in order, others in any order. */
  predicate Deliverable(inbox: seq<Change>, n: nat) {
    n < |inbox| && forall m :: 0 <= m < n ==> inbox[m].id != inbox[n].id
  }

  ghost predicate SysWf(s: System) {
    forall i :: 0 <= i < |s.servers| ==> Wf(s.servers[i].prov)
  }

  predicate IsMember(s: System, i: nat) {
    i < |s.servers| && !s.servers[i].prov.left
  }

  /** A process that left may come back under its old identifier. */
  predicate Possible(s: System, m: Move)
    requires SysWf(s)
  {
    match m
    case At(i, e) =>
      && i < |s.servers| && !e.MemberUpdate? && Enabled(s.servers[i].prov, e)
      && (Departs(s, m) ==> s.budget > 0)
    case Join(id) => s.budget > 0 && forall i :: 0 <= i < |s.servers| && IsMember(s, i) ==> s.servers[i].id != id
    case Deliver(i, n) => IsMember(s, i) && Deliverable(s.servers[i].inbox, n)
    case Resolve(i) => IsMember(s, i) && !s.servers[i].resolved
  }

  predicate Departs(s: System, m: Move)
    requires SysWf(s) && m.At? && m.s < |s.servers| && Enabled(s.servers[m.s].prov, m.e)
  {
    !s.servers[m.s].prov.left && Next(s.servers[m.s].prov, m.e).left
  }

  function Newcomer(id: Id, hash: u64): Server {
    Server(id, NewProvider(hash), [], {}, false)
  }

  /** A server after its n-th announcement arrived: the hash and the cache are updated. */
  function Delivered(v: Server, n: nat): Server
    requires Wf(v.prov) && n < |v.inbox|
  {
    v.(prov := Next(v.prov, MemberUpdate(v.inbox[n].id)),
       inbox := Without(v.inbox, n),
       keys := After(v.keys, [v.inbox[n]]))
  }

  function Step(s: System, m: Move): (t: System)
    requires SysWf(s) && Possible(s, m)
    ensures |s.servers| <= |t.servers| && SysWf(t)
  {
    match m
    case At(i, e) =>
      var v := s.servers[i];
      var p := Next(v.prov, e);
      if Departs(s, m) then
        System(Announce(s.servers[i := v.(prov := p, inbox := [])], GroupHash.Departed(v.id)), s.budget - 1)
      else s.(servers := s.servers[i := v.(prov := p)])
    case Join(id) =>
      // the newcomer hashes the membership it finds, itself included
      System(Announce(s.servers, GroupHash.Joined(id)) + [Newcomer(id, XorAll(MemberIds(s.servers) + [id]))],
          s.budget - 1)
    case Deliver(i, n) => s.(servers := s.servers[i := Delivered(s.servers[i], n)])
    case Resolve(i) =>
      var v := s.servers[i];
      s.(servers := s.servers[i := v.(keys := v.keys + Group(s.servers), resolved := true)])
  }

  // ----- The members -----

  /** No two members have the same identifier. */
  ghost predicate DistinctIds(servers: seq<Server>) {
    forall i, j :: 0 <= i < j < |servers| && !servers[i].prov.left && !servers[j].prov.left ==>
        servers[i].id != servers[j].id
  }

  ghost predicate IsIdOf(servers: seq<Server>, i: nat, x: Id) {
    i < |servers| && servers[i].id == x && !servers[i].prov.left
  }

  lemma {:induction false} MemberIdsDistinct(servers: seq<Server>)
    requires DistinctIds(servers)
    ensures Distinct(MemberIds(servers))
    ensures forall x :: x in MemberIds(servers) <==> exists i: nat :: IsIdOf(servers, i, x)
  {
    if servers != [] {
      var front, last := servers[..|servers| - 1], |servers| - 1;
      MemberIdsDistinct(front);
      forall x
        ensures x in MemberIds(servers) <==> exists i: nat :: IsIdOf(servers, i, x)
      {
        InLonger(servers, front, x);
      }
      LastIsNew(servers, front);
      assert !servers[last].prov.left ==> servers[last].id !in MemberIds(front);
    }
  }

  lemma {:induction false} LastIsNew(servers: seq<Server>, front: seq<Server>)
    requires DistinctIds(servers) && servers != [] && front == servers[..|servers| - 1]
    ensures var last := servers[|servers| - 1];
            !last.prov.left ==> forall i: nat :: !IsIdOf(front, i, last.id)
  {
  }

  lemma {:induction false} InLonger(servers: seq<Server>, front: seq<Server>, x: Id)
    requires servers != [] && front == servers[..|servers| - 1]
    ensures (exists i: nat :: IsIdOf(servers, i, x)) <==>
            (exists i: nat :: IsIdOf(front, i, x)) || IsIdOf(servers, |front|, x)
  {
    if i: nat :| IsIdOf(servers, i, x) {
      if i < |front| { assert IsIdOf(front, i, x); }
    }
    if i: nat :| IsIdOf(front, i, x) { assert IsIdOf(servers, i, x); }
  }

  lemma {:induction false} MemberHasId(servers: seq<Server>, i: nat)
    requires DistinctIds(servers) && i < |servers| && !servers[i].prov.left
    ensures servers[i].id in MemberIds(servers)
  {
    MemberIdsDistinct(servers);
    assert IsIdOf(servers, i, servers[i].id);
  }

  lemma {:induction false} SameMembers(a: seq<Server>, b: seq<Server>)
    requires |a| == |b|
    requires forall i :: 0 <= i < |a| ==> a[i].id == b[i].id && a[i].prov.left == b[i].prov.left
    ensures MemberIds(a) == MemberIds(b)
  {
    if a != [] {
      SameMembers(a[..|a| - 1], b[..|b| - 1]);
    }
  }

  /** a and b are the same group, but for the departure of server i. */
  ghost predicate Leaves(a: seq<Server>, b: seq<Server>, i: nat) {
    && i < |a| == |b| && !a[i].prov.left && b[i].prov.left
    && (forall j :: 0 <= j < |a| ==> a[j].id == b[j].id)
    && (forall j :: 0 <= j < |a| && j != i ==> a[j].prov.left == b[j].prov.left)
  }

  lemma {:induction false} DepartureShrinksGroup(a: seq<Server>, b: seq<Server>, i: nat)
    requires Leaves(a, b, i) && DistinctIds(a)
    ensures DistinctIds(b) && Group(b) == Group(a) - {a[i].id}
  {
    MemberIdsDistinct(a);
    MemberIdsDistinct(b);
    forall x
      ensures x in MemberIds(b) <==> x in MemberIds(a) && x != a[i].id
    {
      if j: nat :| IsIdOf(b, j, x) { assert IsIdOf(a, j, x) && IsIdOf(a, i, a[i].id); }
      if j: nat :| IsIdOf(a, j, x) { assert x != a[i].id ==> IsIdOf(b, j, x); }
    }
  }

  // ----- The hash of the group -----

  lemma {:induction false} XorAllSnoc(ids: seq<Id>, id: Id)
    ensures XorAll(ids + [id]) == Xor(XorAll(ids), id)
  {
    assert (ids + [id])[..|ids|] == ids;
  }

  lemma {:induction false} DepartureTogglesHash(a: seq<Server>, b: seq<Server>, i: nat)
    requires Leaves(a, b, i)
    ensures ViewHash(b) == Xor(ViewHash(a), a[i].id)
  {
    var last := |a| - 1;
    if i == last {
      SameMembers(a[..last], b[..last]);
      XorAllSnoc(MemberIds(a[..last]), a[i].id);
      XorCancels(XorAll(MemberIds(a[..last])), a[i].id);
      assert MemberIds(b[..last]) + [] == MemberIds(b[..last]);
    } else {
      DepartureTogglesHash(a[..last], b[..last], i);
      OneMoreServer(a);
      OneMoreServer(b);
      XorSwap(ViewHash(a[..last]), a[i].id, a[last].id);
    }
  }

  lemma {:induction false} OneMoreServer(servers: seq<Server>)
    requires servers != []
    ensures var last := servers[|servers| - 1];
            ViewHash(servers) == if last.prov.left then ViewHash(servers[..|servers| - 1])
                                 else Xor(ViewHash(servers[..|servers| - 1]), last.id)
  {
    var front := MemberIds(servers[..|servers| - 1]);
    if servers[|servers| - 1].prov.left {
      assert front + [] == front;
    } else {
      XorAllSnoc(front, servers[|servers| - 1].id);
    }
  }

  lemma {:induction false} JoinGrowsGroup(servers: seq<Server>, id: Id, hash: u64)
    ensures var joined := Announce(servers, GroupHash.Joined(id)) + [Newcomer(id, hash)];
            && MemberIds(joined) == MemberIds(servers) + [id]
            && ViewHash(joined) == Xor(ViewHash(servers), id)
            && Group(joined) == Group(servers) + {id}
  {
    var others := Announce(servers, GroupHash.Joined(id));
    SameMembers(servers, others);
    NewcomerIsLast(others, Newcomer(id, hash));
    XorAllSnoc(MemberIds(servers), id);
    MembersSnoc(MemberIds(servers), id);
  }

  lemma {:induction false} MembersSnoc(ids: seq<Id>, id: Id)
    ensures Members(ids + [id]) == Members(ids) + {id}
  {
  }

  lemma {:induction false} NewcomerIsLast(others: seq<Server>, v: Server)
    requires !v.prov.left
    ensures MemberIds(others + [v]) == MemberIds(others) + [v.id]
  {
    assert (others + [v])[..|others|] == others;
  }

  // ----- Every provider's hash, with what it was not told, is the group's -----

  function HashOf(inbox: seq<Change>): u64 {
    XorAll(Subjects(inbox))
  }

  ghost predicate HashOk(v: Server, hash: u64) {
    Xor(v.prov.hash, HashOf(v.inbox)) == hash
  }

  /** What is outstanding about x decides whether it is a member; if nothing is,
      then the cache does, once the group was resolved. */
  ghost predicate KeyOk(v: Server, x: Id, member: bool) {
    match LastOf(v.inbox, x)
    case Some(joined) => member == joined
    case None => (x in v.keys ==> member) && (v.resolved && member ==> x in v.keys)
  }

  ghost predicate CacheOk(v: Server, group: set<Id>) {
    forall x: Id :: KeyOk(v, x, x in group)
  }

  ghost predicate ServerOk(v: Server, hash: u64, group: set<Id>) {
    && Inv(v.prov)
    && (if v.prov.left then v.inbox == [] else HashOk(v, hash) && CacheOk(v, group))
  }

  ghost predicate SysInv(s: System) {
    && DistinctIds(s.servers)
    && forall i :: 0 <= i < |s.servers| ==> ServerOk(s.servers[i], ViewHash(s.servers), Group(s.servers))
  }

  lemma {:induction false} SubjectsSnoc(inbox: seq<Change>, c: Change)
    ensures HashOf(inbox + [c]) == Xor(HashOf(inbox), c.id)
  {
    assert Subjects(inbox + [c]) == Subjects(inbox) + [c.id];
    XorAllSnoc(Subjects(inbox), c.id);
  }

  lemma {:induction false} WithoutLast(inbox: seq<Change>, n: nat)
    requires n < |inbox|
    ensures var last := |inbox| - 1;
            Without(inbox, n) == if n == last then inbox[..last] else Without(inbox[..last], n) + [inbox[last]]
  {
  }

  lemma {:induction false} HashWithout(inbox: seq<Change>, n: nat)
    requires n < |inbox|
    ensures HashOf(inbox) == Xor(HashOf(Without(inbox, n)), inbox[n].id)
  {
    var last := |inbox| - 1;
    assert inbox == inbox[..last] + [inbox[last]];
    SubjectsSnoc(inbox[..last], inbox[last]);
    WithoutLast(inbox, n);
    if n < last {
      HashWithout(inbox[..last], n);
      SubjectsSnoc(Without(inbox[..last], n), inbox[last]);
      XorSwap(HashOf(Without(inbox[..last], n)), inbox[n].id, inbox[last].id);
    }
  }

  lemma {:induction false} LastOfSnoc(inbox: seq<Change>, c: Change, x: Id)
    ensures LastOf(inbox + [c], x) == if c.id == x then Some(c.Joined?) else LastOf(inbox, x)
  {
    assert (inbox + [c])[..|inbox|] == inbox;
  }

  /** The arrival of the first announcement about a member leaves what the later
      ones say. */
  lemma {:induction false} LastOfWithout(inbox: seq<Change>, n: nat, x: Id)
    requires Deliverable(inbox, n)
    ensures LastOf(inbox, x) ==
            if x == inbox[n].id && LastOf(Without(inbox, n), x).None? then Some(inbox[n].Joined?)
            else LastOf(Without(inbox, n), x)
  {
    var last := |inbox| - 1;
    WithoutLast(inbox, n);
    if n < last {
      LastOfWithout(inbox[..last], n, x);
      LastOfSnoc(Without(inbox[..last], n), inbox[last], x);
    } else {
      NotMentioned(inbox[..last], inbox[n].id);
    }
  }

  lemma {:induction false} NotMentioned(inbox: seq<Change>, x: Id)
    requires forall m :: 0 <= m < |inbox| ==> inbox[m].id != x
    ensures LastOf(inbox, x) == None
  {
    if inbox != [] {
      NotMentioned(inbox[..|inbox| - 1], x);
    }
  }

  /** The group changed by one event, and the server is told of it. */
  lemma {:induction false} ToldOk(v: Server, hash: u64, group: set<Id>, c: Change)
    requires ServerOk(v, hash, group)
    ensures ServerOk(Told(v, c), Xor(hash, c.id), After(group, [c]))
  {
    if !v.prov.left {
      var w := Told(v, c);
      SubjectsSnoc(v.inbox, c);
      XorAssociative(v.prov.hash, HashOf(v.inbox), c.id);
      AfterOne(group, c);
      forall x: Id
        ensures KeyOk(w, x, x in After(group, [c]))
      {
        assert KeyOk(v, x, x in group);
        LastOfSnoc(v.inbox, c, x);
      }
    }
  }

  lemma {:induction false} DeliveredHash(v: Server, hash: u64, n: nat)
    requires Wf(v.prov) && HashOk(v, hash) && n < |v.inbox|
    ensures HashOk(Delivered(v, n), hash)
  {
    var x, rest := v.inbox[n].id, HashOf(Without(v.inbox, n));
    HashWithout(v.inbox, n);
    XorAssociative(v.prov.hash, x, rest);
    XorBitsCommutative(x, rest);
  }

  lemma {:induction false} DeliveredCache(v: Server, group: set<Id>, n: nat)
    requires Wf(v.prov) && CacheOk(v, group) && Deliverable(v.inbox, n)
    ensures CacheOk(Delivered(v, n), group)
  {
    AfterOne(v.keys, v.inbox[n]);
    forall x: Id
      ensures KeyOk(Delivered(v, n), x, x in group)
    {
      assert KeyOk(v, x, x in group);
      LastOfWithout(v.inbox, n, x);
    }
  }

  lemma {:induction false} DeliveredOk(v: Server, hash: u64, group: set<Id>, n: nat)
    requires ServerOk(v, hash, group) && !v.prov.left && Deliverable(v.inbox, n)
    ensures ServerOk(Delivered(v, n), hash, group)
  {
    DeliveredHash(v, hash, n);
    DeliveredCache(v, group, n);
    SameObjsKeepLinked(v.prov, Delivered(v, n).prov);
  }

  lemma {:induction false} ResolvedOk(v: Server, hash: u64, group: set<Id>)
    requires ServerOk(v, hash, group)
    ensures ServerOk(v.(keys := v.keys + group, resolved := true), hash, group)
  {
    if !v.prov.left {
      forall x: Id
        ensures KeyOk(v.(keys := v.keys + group, resolved := true), x, x in group)
      {
        assert KeyOk(v, x, x in group);
      }
    }
  }

  lemma {:induction false} NewcomerOk(id: Id, hash: u64, group: set<Id>)
    ensures ServerOk(Newcomer(id, hash), hash, group)
  {
    NewProviderInv(hash);
    XorBitsCommutative(hash, 0);
    forall x: Id
      ensures KeyOk(Newcomer(id, hash), x, x in group)
    {
    }
  }

  lemma {:induction false} LeftStays(p: Provider, e: Event)
    requires Inv(p) && Enabled(p, e)
    ensures p.left ==> Next(p, e).left
    ensures !e.MemberUpdate? ==> Next(p, e).hash == p.hash
  {
  }

  /** The client's discipline, and a bound no provider can reach. */
  ghost predicate Fair(s: System, m: Move)
    requires SysWf(s) && Possible(s, m)
  {
    m.At? ==> Serial(s.servers[m.s].prov, m.e) && |s.servers[m.s].prov.objs| < TWO64
  }

  lemma {:induction false} DepartureKeepsInv(s: System, m: Move)
    requires SysInv(s) && SysWf(s) && Possible(s, m) && Fair(s, m) && m.At? && Departs(s, m)
    ensures SysInv(Step(s, m))
  {
    var v, c := s.servers[m.s], GroupHash.Departed(s.servers[m.s].id);
    var t := Step(s, m);
    NextKeepsInv(v.prov, m.e);
    DepartureTogglesHash(s.servers, t.servers, m.s);
    DepartureShrinksGroup(s.servers, t.servers, m.s);
    AfterOne(Group(s.servers), c);
    forall i | 0 <= i < |t.servers|
      ensures ServerOk(t.servers[i], Xor(ViewHash(s.servers), v.id), After(Group(s.servers), [c]))
    {
      if i != m.s { ToldOk(s.servers[i], ViewHash(s.servers), Group(s.servers), c); }
    }
  }

  lemma {:induction false} OneMoreOk(others: seq<Server>, v: Server, budget: nat, hash: u64, group: set<Id>)
    requires DistinctIds(others) && forall i :: 0 <= i < |others| && !others[i].prov.left ==> others[i].id != v.id
    requires forall i :: 0 <= i < |others| ==> ServerOk(others[i], hash, group)
    requires ServerOk(v, hash, group) && ViewHash(others + [v]) == hash && Group(others + [v]) == group
    ensures SysInv(System(others + [v], budget))
  {
    var servers := others + [v];
    forall i | 0 <= i < |servers|
      ensures ServerOk(servers[i], hash, group)
    {
      if i < |others| { assert servers[i] == others[i]; }
    }
  }

  lemma {:induction false} JoinKeepsInv(s: System, id: Id)
    requires SysInv(s) && SysWf(s) && Possible(s, Join(id))
    ensures SysInv(Step(s, Join(id)))
  {
    var c := GroupHash.Joined(id);
    var others, hash, group := Announce(s.servers, c), Xor(ViewHash(s.servers), id), Group(s.servers) + {id};
    XorAllSnoc(MemberIds(s.servers), id);
    JoinGrowsGroup(s.servers, id, hash);
    AfterOne(Group(s.servers), c);
    NewcomerOk(id, hash, group);
    forall i | 0 <= i < |others|
      ensures ServerOk(others[i], hash, group)
      ensures others[i].id == s.servers[i].id && others[i].prov == s.servers[i].prov
    {
      ToldOk(s.servers[i], ViewHash(s.servers), Group(s.servers), c);
    }
    OneMoreOk(others, Newcomer(id, hash), s.budget - 1, hash, group);
  }

  /** One server changed, but not whether it is a member. */
  lemma {:induction false} StayingKeepsInv(s: System, t: System, i: nat)
    requires SysInv(s) && i < |s.servers| == |t.servers|
    requires forall j :: 0 <= j < |s.servers| && j != i ==> t.servers[j] == s.servers[j]
    requires t.servers[i].id == s.servers[i].id && t.servers[i].prov.left == s.servers[i].prov.left
    requires ServerOk(t.servers[i], ViewHash(s.servers), Group(s.servers))
    ensures SysInv(t) && MemberIds(t.servers) == MemberIds(s.servers)
  {
    SameMembers(s.servers, t.servers);
    forall j | 0 <= j < |t.servers|
      ensures ServerOk(t.servers[j], ViewHash(t.servers), Group(t.servers))
    {
      assert ServerOk(s.servers[j], ViewHash(s.servers), Group(s.servers));
    }
  }

  /** A request or another step at one server that does not leave by it. */
  lemma {:induction false} RequestKeepsInv(s: System, i: nat, e: Event)
    requires SysInv(s) && SysWf(s) && Possible(s, At(i, e)) && Fair(s, At(i, e)) && !Departs(s, At(i, e))
    ensures SysInv(Step(s, At(i, e))) && MemberIds(Step(s, At(i, e)).servers) == MemberIds(s.servers)
  {
    var v := s.servers[i];
    assert ServerOk(v, ViewHash(s.servers), Group(s.servers));
    NextKeepsInv(v.prov, e);
    LeftStays(v.prov, e);
    SameOutside(v, Next(v.prov, e), ViewHash(s.servers), Group(s.servers));
    StayingKeepsInv(s, Step(s, At(i, e)), i);
  }

  lemma {:induction false} SameOutside(v: Server, p: Provider, hash: u64, group: set<Id>)
    requires ServerOk(v, hash, group) && Inv(p) && p.hash == v.prov.hash && p.left == v.prov.left
    ensures ServerOk(v.(prov := p), hash, group)
  {
    if !p.left {
      forall x: Id
        ensures KeyOk(v.(prov := p), x, x in group)
      {
        assert KeyOk(v, x, x in group);
      }
    }
  }

  lemma {:induction false} StepKeepsInv(s: System, m: Move)
    requires SysInv(s) && SysWf(s) && Possible(s, m) && Fair(s, m)
    ensures SysInv(Step(s, m))
  {
    match m
    case At(i, e) =>
      if Departs(s, m) {
        DepartureKeepsInv(s, m);
      } else {
        RequestKeepsInv(s, i, e);
      }
    case Join(id) => JoinKeepsInv(s, id);
    case Deliver(i, n) =>
      DeliveredOk(s.servers[i], ViewHash(s.servers), Group(s.servers), n);
      StayingKeepsInv(s, Step(s, m), i);
    case Resolve(i) =>
      ResolvedOk(s.servers[i], ViewHash(s.servers), Group(s.servers));
      StayingKeepsInv(s, Step(s, m), i);
  }

  // ----- Whole runs -----

  ghost predicate LegalMoves(s: System, ms: seq<Move>)
    requires SysWf(s)
    decreases |ms|
  {
    ms == [] || (Possible(s, ms[0]) && Fair(s, ms[0]) && LegalMoves(Step(s, ms[0]), ms[1..]))
  }

  function Play(s: System, ms: seq<Move>): (t: System)
    requires SysWf(s) && LegalMoves(s, ms)
    ensures SysWf(t) && |s.servers| <= |t.servers|
    decreases |ms|
  {
    if ms == [] then s else Play(Step(s, ms[0]), ms[1..])
  }

  /** Whatever the order in which joins, departures and their announcements
      interleave with requests, a provider's incrementally updated hash lacks
      exactly the events it was not told yet. */
  lemma {:induction false} HashTracksMembership(s: System, ms: seq<Move>)
    requires SysInv(s) && SysWf(s) && LegalMoves(s, ms)
    ensures SysInv(Play(s, ms))
    decreases |ms|
  {
    if ms != [] {
      StepKeepsInv(s, ms[0]);
      HashTracksMembership(Step(s, ms[0]), ms[1..]);
    }
  }

  /** Once a member resolved the group, the keys of its address cache, with what it
      was not told, are the membership; and so are the keys alone when it was
      told everything. */
  lemma {:induction false} CacheTracksMembership(s: System, ms: seq<Move>, i: nat)
    requires SysInv(s) && SysWf(s) && LegalMoves(s, ms)
    requires IsMember(Play(s, ms), i) && Play(s, ms).servers[i].resolved
    ensures var t, v := Play(s, ms), Play(s, ms).servers[i];
            After(v.keys, v.inbox) == Group(t.servers) && (v.inbox == [] ==> v.keys == Group(t.servers))
  {
    var t, v := Play(s, ms), Play(s, ms).servers[i];
    HashTracksMembership(s, ms);
    assert ServerOk(v, ViewHash(t.servers), Group(t.servers));
    forall x
      ensures x in After(v.keys, v.inbox) <==> x in Group(t.servers)
    {
      AfterByLast(v.keys, v.inbox, x);
      assert KeyOk(v, x, x in Group(t.servers));
    }
    assert After(v.keys, v.inbox) == Group(t.servers);
  }

  /** A member that was told every event refuses a start for its hash exactly
      when the identifiers by which the client's view differs from the
      membership do not cancel. */
  lemma {:induction false} RefusedForItsHash(s: System, i: nat, view: set<Id>, name: string, k: u64)
    requires SysInv(s) && i < |s.servers| && !s.servers[i].prov.left && s.servers[i].inbox == []
    ensures var members := Members(MemberIds(s.servers));
            s.servers[i].prov.hash == SetHash(members) &&
            (Admit(s.servers[i].prov, name, Start(SetHash(view), k)) == Refused(INVALID_GROUP_HASH) <==>
             SetHash(SymmetricDifference(view, members)) != 0)
  {
    ToldEverything(s, i);
    EqualHashes(view, Members(MemberIds(s.servers)));
  }

  lemma {:induction false} ToldEverything(s: System, i: nat)
    requires SysInv(s) && i < |s.servers| && !s.servers[i].prov.left && s.servers[i].inbox == []
    ensures s.servers[i].prov.hash == SetHash(Members(MemberIds(s.servers)))
  {
    assert ServerOk(s.servers[i], ViewHash(s.servers), Group(s.servers));
    assert Subjects(s.servers[i].inbox) == [];
    XorBitsCommutative(s.servers[i].prov.hash, 0);
    MemberIdsDistinct(s.servers);
    XorAllIsSetHash(MemberIds(s.servers));
  }

  // ----- A started view is stable -----

  /** How one provider stands to the start that rank 0 sent it. */
  datatype Watch =
    | Unsent
    | InFlight(h: nat, i: nat)
    | Accepted(i: nat)
    | Declined
    | Over   // closed by a cleanup or an abort, or its name was taken

  function Track(p: Provider, w: Watch, e: Event, name: string, hash: u64, k: u64): Watch
    requires Wf(p)
  {
    match w
    case Unsent =>
      if e != Req(name, Start(hash, k)) then Unsent
      else
        (match Admit(p, name, Start(hash, k))
         case Admitted(i) => InFlight(|p.handlers|, i)
         case Refused(_) => Declined)
    case InFlight(h, i) =>
      if e.BackendRet? && e.h == h then (if e.ok then Accepted(i) else Declined)
      else if e == Create(name) || e == Destroy(name) then Over
      else w
    case Accepted(i) =>
      if e == Create(name) then Over
      else if e.BackendRet? && e.h < |p.handlers| && p.handlers[e.h].obj == i &&
              (p.handlers[e.h].pc.Aborting? || (p.handlers[e.h].pc.Cleaning? && e.ok)) then Over
      else w
    case _ => w
  }

  ghost predicate WatchOk(p: Provider, w: Watch, name: string, k: u64) {
    match w
    case InFlight(h, i) =>
      && name in p.names && p.names[name] == i
      && h < |p.handlers| && p.handlers[h] == Handler(i, Starting(k))
    case Accepted(i) => Stable(p, name, k, i)
    case _ => true
  }

  lemma {:induction false} TrackKeeps(p: Provider, w: Watch, e: Event, name: string, hash: u64, k: u64)
    requires Inv(p) && Enabled(p, e) && Serial(p, e) && |p.objs| < TWO64
    requires WatchOk(p, w, name, k)
    ensures WatchOk(Next(p, e), Track(p, w, e, name, hash, k), name, k)
  {
    match w
    case InFlight(h, i) =>
      assert HandlerOk(p, h) && ObjOk(p, i);
      BusyZero(p.objs, i);
    case Accepted(i) => StableStep(p, e, name, k, i);
    case _ =>
  }

  /** A watch is what its name says: the request is in flight from its admission on,
      it is accepted when its backend call succeeds, and it stays so exactly as long
      as the pipeline stays installed and active at k. */
  lemma {:induction false} TrackTells(p: Provider, w: Watch, e: Event, name: string, hash: u64, k: u64)
    requires Inv(p) && Enabled(p, e) && Serial(p, e) && |p.objs| < TWO64
    requires WatchOk(p, w, name, k)
    ensures var u := Track(p, w, e, name, hash, k);
            && (w.Unsent? ==>
                  (u.InFlight? <==> e == Req(name, Start(hash, k)) && Admit(p, name, Start(hash, k)).Admitted?)
                  && (u.Unsent? <==> e != Req(name, Start(hash, k))))
            && (u.Accepted? <==>
                  || (w.InFlight? && e == BackendRet(w.h, true))
                  || (w.Accepted? && Stable(Next(p, e), name, k, w.i)))
            && (w.InFlight? ==>
                  (u == w <==> !(e.BackendRet? && e.h == w.h) && e != Create(name) && e != Destroy(name)))
  {
    if w.Accepted? { StableStep(p, e, name, k, w.i); }
  }

  /** What every watch becomes in one move of the system. */
  function TrackAll(s: System, ws: seq<Watch>, m: Move, name: string, hash: u64, k: u64): (us: seq<Watch>)
    requires SysWf(s) && |ws| == |s.servers| && Possible(s, m)
    ensures |us| == |Step(s, m).servers|
  {
    match m
    case At(i, e) => ws[i := Track(s.servers[i].prov, ws[i], e, name, hash, k)]
    case Join(_) => ws + [Unsent]
    case _ => ws
  }

  function Watched(s: System, ws: seq<Watch>, ms: seq<Move>, name: string, hash: u64, k: u64): (us: seq<Watch>)
    requires SysWf(s) && |ws| == |s.servers| && LegalMoves(s, ms)
    ensures |us| == |Play(s, ms).servers|
    decreases |ms|
  {
    if ms == [] then ws
    else Watched(Step(s, ms[0]), TrackAll(s, ws, ms[0], name, hash, k), ms[1..], name, hash, k)
  }

  ghost predicate AllWatchesOk(s: System, ws: seq<Watch>, name: string, k: u64)
    requires |ws| == |s.servers|
  {
    forall i :: 0 <= i < |ws| ==> WatchOk(s.servers[i].prov, ws[i], name, k)
  }

  lemma {:induction false} StepKeepsWatches(s: System, ws: seq<Watch>, m: Move, name: string, hash: u64, k: u64)
    requires SysInv(s) && SysWf(s) && Possible(s, m) && Fair(s, m)
    requires |ws| == |s.servers| && AllWatchesOk(s, ws, name, k)
    ensures AllWatchesOk(Step(s, m), TrackAll(s, ws, m, name, hash, k), name, k)
  {
    var t, us := Step(s, m), TrackAll(s, ws, m, name, hash, k);
    forall i | 0 <= i < |us|
      ensures WatchOk(t.servers[i].prov, us[i], name, k)
    {
      if i < |ws| {
        assert WatchOk(s.servers[i].prov, ws[i], name, k);
        StepElsewhere(s, m, i);
        if m.At? && m.s == i {
          assert ServerOk(s.servers[i], ViewHash(s.servers), Group(s.servers));
          TrackKeeps(s.servers[i].prov, ws[i], m.e, name, hash, k);
        }
      }
    }
  }

  /** A move changes one provider by an event, the others at most in their hash. */
  lemma {:induction false} StepElsewhere(s: System, m: Move, i: nat)
    requires SysWf(s) && Possible(s, m) && i < |s.servers|
    ensures var p, q := s.servers[i].prov, Step(s, m).servers[i].prov;
            if m.At? && m.s == i then q == Next(p, m.e) else q == p.(hash := q.hash)
  {
  }

  // ----- What the moves are -----

  /** Whoever is not a member can join. */
  lemma {:induction false} WhoCanJoin(s: System, id: Id)
    requires DistinctIds(s.servers) && SysWf(s)
    ensures Possible(s, Join(id)) <==> s.budget > 0 && id !in Group(s.servers)
  {
    MemberIdsDistinct(s.servers);
    if j: nat :| IsIdOf(s.servers, j, id) { assert IsMember(s, j); }
    if j: nat :| IsMember(s, j) && s.servers[j].id == id { assert IsIdOf(s.servers, j, id); }
  }

  /** A member can resolve the group once, and an announcement can reach it as soon as
      no earlier one about the same subject is outstanding, whatever else is. */
  lemma {:induction false} WhatCanArrive(s: System, i: nat, n: nat)
    requires SysWf(s) && IsMember(s, i)
    ensures Possible(s, Resolve(i)) <==> !s.servers[i].resolved
    ensures var inbox := s.servers[i].inbox;
            n < |inbox| ==> (Possible(s, Deliver(i, n)) <==> LastOf(inbox[..n], inbox[n].id) == None)
  {
    var inbox := s.servers[i].inbox;
    if n < |inbox| { LastOfNone(inbox[..n], inbox[n].id); }
  }

  lemma {:induction false} LastOfNone(inbox: seq<Change>, x: Id)
    ensures LastOf(inbox, x) == None <==> forall m :: 0 <= m < |inbox| ==> inbox[m].id != x
  {
    if inbox != [] { LastOfNone(inbox[..|inbox| - 1], x); }
  }

  /** A key enters a member's cache when the news of a join arrives, or when the
      member resolves the group; it goes when the news of a departure arrives. */
  lemma {:induction false} KeysFollowNews(s: System, m: Move, i: nat, x: Id)
    requires SysWf(s) && Possible(s, m) && i < |s.servers|
    ensures x in Step(s, m).servers[i].keys <==>
            || (m == Resolve(i) && x in Group(s.servers))
            || Arrives(s, m, i, GroupHash.Joined(x))
            || (x in s.servers[i].keys && !Arrives(s, m, i, GroupHash.Departed(x)))
  {
    if m.Deliver? && m.s == i { AfterOne(s.servers[i].keys, s.servers[i].inbox[m.n]); }
  }

  ghost predicate Arrives(s: System, m: Move, i: nat, c: Change) {
    m.Deliver? && m.s == i < |s.servers| && m.n < |s.servers[i].inbox| && s.servers[i].inbox[m.n] == c
  }

  lemma {:induction false} RunKeepsWatches(s: System, ws: seq<Watch>, ms: seq<Move>, name: string, hash: u64, k: u64)
    requires SysInv(s) && SysWf(s) && LegalMoves(s, ms)
    requires |ws| == |s.servers| && AllWatchesOk(s, ws, name, k)
    ensures AllWatchesOk(Play(s, ms), Watched(s, ws, ms, name, hash, k), name, k)
    decreases |ms|
  {
    if ms != [] {
      StepKeepsInv(s, ms[0]);
      StepKeepsWatches(s, ws, ms[0], name, hash, k);
      RunKeepsWatches(Step(s, ms[0]), TrackAll(s, ws, ms[0], name, hash, k), ms[1..], name, hash, k);
    }
  }

  /** Over a whole run of the system, in which joins, leave requests, other
      starts, creations and destructions interleave in any way: each provider
      that accepted start(k) is still a member, with its pipeline installed and
      active at k, until it is closed there by a cleanup, an automatic cleanup
      or an abort, or its name is taken. */
  lemma {:induction false} StableView(s: System, ms: seq<Move>, name: string, hash: u64, k: u64, i: nat)
    requires SysInv(s) && SysWf(s) && LegalMoves(s, ms)
    requires i < |Watched(s, Unwatched(s), ms, name, hash, k)|
    requires Watched(s, Unwatched(s), ms, name, hash, k)[i].Accepted?
    ensures var v := Play(s, ms).servers[i];
            && v.id in MemberIds(Play(s, ms).servers)
            && Stable(v.prov, name, k, Watched(s, Unwatched(s), ms, name, hash, k)[i].i)
  {
    var t, us := Play(s, ms), Watched(s, Unwatched(s), ms, name, hash, k);
    RunKeepsWatches(s, Unwatched(s), ms, name, hash, k);
    assert WatchOk(t.servers[i].prov, us[i], name, k);
    HashTracksMembership(s, ms);
    MemberHasId(t.servers, i);
  }

  /** From the moment on at which a provider x accepted start(k): it stays a
      member, with the pipeline active at k, until the move ms[n] that closes the
      iteration on it. */
  lemma {:induction false} StableUntilClosedThere(s: System, ms: seq<Move>, x: nat, name: string, k: u64, i: nat)
    returns (n: nat)
    requires SysInv(s) && SysWf(s) && LegalMoves(s, ms)
    requires x < |s.servers| && Stable(s.servers[x].prov, name, k, i)
    ensures n <= |ms| && LegalMoves(s, ms[..n]) && StaysIn(Play(s, ms[..n]), s.servers[x].id, x, name, k, i)
    ensures n < |ms| ==>
              ms[n].At? && ms[n].s == x && Closes(Play(s, ms[..n]).servers[x].prov, ms[n].e, name, i)
    decreases |ms|
  {
    assert ms[..0] == [];
    if ms == [] || (ms[0].At? && ms[0].s == x && Closes(s.servers[x].prov, ms[0].e, name, i)) {
      n := 0;
      MemberHasId(s.servers, x);
    } else {
      StepKeepsInv(s, ms[0]);
      StableMove(s, ms[0], x, name, k, i);
      var m := StableUntilClosedThere(Step(s, ms[0]), ms[1..], x, name, k, i);
      n := m + 1;
      assert ms[..n][1..] == ms[1..][..m];
    }
  }

  ghost predicate StaysIn(s: System, id: Id, x: nat, name: string, k: u64, i: nat) {
    && x < |s.servers| && s.servers[x].id == id
    && id in MemberIds(s.servers)
    && Stable(s.servers[x].prov, name, k, i)
  }

  lemma {:induction false} StableMove(s: System, m: Move, x: nat, name: string, k: u64, i: nat)
    requires SysInv(s) && SysWf(s) && Possible(s, m) && Fair(s, m)
    requires x < |s.servers| && Stable(s.servers[x].prov, name, k, i)
    requires !(m.At? && m.s == x && Closes(s.servers[x].prov, m.e, name, i))
    ensures Stable(Step(s, m).servers[x].prov, name, k, i) && Step(s, m).servers[x].id == s.servers[x].id
  {
    if m.At? && m.s == x {
      assert ServerOk(s.servers[x], ViewHash(s.servers), Group(s.servers));
      StableStep(s.servers[x].prov, m.e, name, k, i);
    }
  }

  function Unwatched(s: System): seq<Watch> {
    seq(|s.servers|, _ => Unsent)
  }
}

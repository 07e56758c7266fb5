/** What holds while requests to several providers are handled, in whatever
    interleaving, and when all of them were answered. */
module FanOuts {
  import opened Words
  import opened GroupHash
  import opened ProviderSpec
  import opened ProviderRuns
  import opened ProviderWhole
  import opened Elastic
  import opened Folds
  import opened Requests

  /** No two requests go to the same provider, and all to providers of s0. */
  ghost predicate Targets(asked: seq<Asked>, n: nat) {
    && (forall j :: 0 <= j < |asked| ==> asked[j].x < n)
    && (forall j, k :: 0 <= j < k < |asked| ==> asked[j].x != asked[k].x)
  }

  ghost predicate Addressed(asked: seq<Asked>, x: nat) {
    exists j :: 0 <= j < |asked| && asked[j].x == x
  }

  /** A start that found a provider with another hash. */
  predicate Mismatch(a: Asked) {
    a.r.Start? && a.seen.Some? && a.seen.value.hash != a.r.hash
  }

  /** A start that found another hash although it carries that of the group s0, at
      a member of s0: an event has happened since, or announcements were
      outstanding in s0. */
  ghost predicate News(s0: System, s: System, a: Asked) {
    Mismatch(a) && a.r.hash == ViewHash(s0.servers) && IsMember(s0, a.x) ==>
      s.budget < s0.budget || Backlog(s0.servers) > 0
  }

  ghost predicate EachLocal(s0: System, net: RawNet, name: string) {
    && |s0.servers| <= |net.sys.servers|
    && Targets(net.asked, |s0.servers|)
    && forall j :: 0 <= j < |net.asked| ==> LocalAt(s0, net, j, name)
  }

  ghost predicate LocalAt(s0: System, net: RawNet, j: nat, name: string)
    requires j < |net.asked| && net.asked[j].x < |s0.servers| <= |net.sys.servers|
  {
    Local(s0.servers[net.asked[j].x].prov, net.sys.servers[net.asked[j].x].prov, net.asked[j], name)
  }

  /** Providers that are not addressed are as they were; newcomers have no pipelines. */
  ghost predicate OthersKept(s0: System, net: RawNet) {
    && |s0.servers| <= |net.sys.servers|
    && (forall x :: 0 <= x < |s0.servers| ==>
          Addressed(net.asked, x) || Kept(s0.servers[x].prov, net.sys.servers[x].prov))
    && (forall x :: |s0.servers| <= x < |net.sys.servers| ==> net.sys.servers[x].prov.objs == [])
  }

  ghost predicate AllNews(s0: System, net: RawNet) {
    forall j :: 0 <= j < |net.asked| ==> News(s0, net.sys, net.asked[j])
  }

  /** What holds of requests that were sent in s0. */
  ghost predicate NetOk(s0: System, net: RawNet, name: string) {
    && Sound(net.sys) && Calm(s0, net.sys)
    && EachLocal(s0, net, name) && OthersKept(s0, net) && AllNews(s0, net)
  }

  // ----- Surroundings -----

  lemma {:induction false} SurroundingsKeepLocal(s0: System, net: RawNet, t: System, name: string)
    requires EachLocal(s0, net, name) && AllKept(net.sys, t)
    ensures EachLocal(s0, net.(sys := t), name)
  {
    var after := net.(sys := t);
    forall j | 0 <= j < |after.asked|
      ensures LocalAt(s0, after, j, name)
    {
      assert LocalAt(s0, net, j, name);
      var x := net.asked[j].x;
      KeptLocal(s0.servers[x].prov, net.sys.servers[x].prov, t.servers[x].prov, net.asked[j], name);
    }
  }

  lemma {:induction false} SurroundingsKeepOthers(s0: System, net: RawNet, t: System)
    requires OthersKept(s0, net) && AllKept(net.sys, t)
    ensures OthersKept(s0, net.(sys := t))
  {
    forall x | 0 <= x < |s0.servers|
      ensures Addressed(net.asked, x) || Kept(s0.servers[x].prov, t.servers[x].prov)
    {
      if !Addressed(net.asked, x) {
        KeptTrans(s0.servers[x].prov, net.sys.servers[x].prov, t.servers[x].prov);
      }
    }
    forall x | |s0.servers| <= x < |t.servers|
      ensures t.servers[x].prov.objs == []
    {
      if x < |net.sys.servers| { assert Kept(net.sys.servers[x].prov, t.servers[x].prov); }
    }
  }

  lemma {:induction false} NewsStays(s0: System, s: System, t: System, asked: seq<Asked>)
    requires AllNews(s0, Net(s, asked)) && t.budget <= s.budget
    ensures AllNews(s0, Net(t, asked))
  {
    forall j | 0 <= j < |asked|
      ensures News(s0, t, asked[j])
    {
      assert News(s0, s, asked[j]);
    }
  }

  lemma {:induction false} SurroundingsKeep(s0: System, net: RawNet, name: string, m: Move)
    requires NetOk(s0, net, name) && MembershipMove(m) && Possible(net.sys, m)
    ensures NetOk(s0, net.(sys := Step(net.sys, m)), name)
  {
    var t := Step(net.sys, m);
    MoveKeeps(net.sys, m);
    CalmTrans(s0, net.sys, t);
    SurroundingsKeepLocal(s0, net, t, name);
    SurroundingsKeepOthers(s0, net, t);
    NewsStays(s0, net.sys, t, net.asked);
  }

  // ----- A request goes on -----

  lemma {:induction false} TakeKeepsSound(s: System, x: nat, e: Event)
    requires Sound(s) && x < |s.servers| && !e.MemberUpdate? && !e.LeaveReq? && !e.LeaveWake? && !e.Create?
    requires Enabled(s.servers[x].prov, e) && Serial(s.servers[x].prov, e)
    ensures Take(s, x, e) == Step(s, At(x, e))
    ensures Sound(Take(s, x, e)) && Calm(s, Take(s, x, e))
  {
    var t := Take(s, x, e);
    InvOf(s, x);
    RequestsStay(s.servers[x].prov, e);
    RequestKeepsInv(s, x, e);
    OneChangedCalm(s, t, x);
    OneChangedSound(s, t, x);
  }

  lemma {:induction false} RequestsStay(p: Provider, e: Event)
    requires Wf(p) && Enabled(p, e) && !e.LeaveReq? && !e.LeaveWake? && !e.Create?
    ensures Next(p, e).left == p.left && |Next(p, e).objs| == |p.objs|
  {
  }

  /** A mismatch under the current hash: the provider was not told everything. */
  lemma {:induction false} MismatchMeansBehind(s0: System, s: System, x: nat)
    requires Sound(s) && Calm(s0, s) && IsMember(s0, x)
    requires s.servers[x].prov.hash != ViewHash(s0.servers)
    ensures s.budget < s0.budget || Backlog(s0.servers) > 0
  {
    if s.budget == s0.budget {
      var v := s.servers[x];
      SameMembers(s0.servers, s.servers);
      assert ServerOk(v, ViewHash(s.servers), Group(s.servers));
      if v.inbox == [] {
        assert Subjects(v.inbox) == [];
        XorBitsCommutative(v.prov.hash, 0);
      }
      BacklogUpdate(s.servers, x, v);
    }
  }

  lemma {:induction false} NewsOf(s0: System, s: System, p: Provider, a: Asked, name: string)
    requires Sound(s) && Calm(s0, s) && News(s0, s, a) && !a.st.Answered?
    requires a.x < |s0.servers| && p == s.servers[a.x].prov && Enabled(p, Going(p, a, name))
    ensures News(s0, s, Gone(p, a, name))
  {
    if a.st.Sent? && a.r.Start? && p.hash != a.r.hash && a.r.hash == ViewHash(s0.servers) && IsMember(s0, a.x) {
      MismatchMeansBehind(s0, s, a.x);
    }
  }

  lemma {:induction false} AdvanceKeepsLocal(s0: System, net: RawNet, name: string, j: nat)
    requires Ready(s0, name) && Sound(net.sys) && EachLocal(s0, net, name)
    requires j < |net.asked| && !net.asked[j].st.Answered?
    ensures var a, p := net.asked[j], net.sys.servers[net.asked[j].x].prov;
            && Enabled(p, Going(p, a, name)) && Serial(p, Going(p, a, name))
            && EachLocal(s0, Net(Take(net.sys, a.x, Going(p, a, name)), net.asked[j := Gone(p, a, name)]), name)
  {
    var a, x := net.asked[j], net.asked[j].x;
    var p := net.sys.servers[x].prov;
    InvOf(net.sys, x);
    assert LocalAt(s0, net, j, name) && Quiet(s0.servers[x].prov, name);
    LocalGoesOn(s0.servers[x].prov, p, a, name);
    OneGoesOn(s0, net, name, j, Take(net.sys, x, Going(p, a, name)), Gone(p, a, name));
  }

  /** Only request j and its provider change. */
  lemma {:induction false} OneGoesOn(s0: System, net: RawNet, name: string, j: nat, t: System, a: Asked)
    requires EachLocal(s0, net, name) && j < |net.asked| && a.x == net.asked[j].x
    requires |t.servers| == |net.sys.servers| && t.servers == net.sys.servers[a.x := t.servers[a.x]]
    requires Local(s0.servers[a.x].prov, t.servers[a.x].prov, a, name)
    ensures EachLocal(s0, Net(t, net.asked[j := a]), name)
  {
    var after := Net(t, net.asked[j := a]);
    forall k | 0 <= k < |after.asked|
      ensures LocalAt(s0, after, k, name)
    {
      assert LocalAt(s0, net, k, name);
      assert k < j ==> net.asked[k].x != net.asked[j].x;
      assert j < k ==> net.asked[j].x != net.asked[k].x;
    }
  }

  lemma {:induction false} AdvanceKeepsOthers(s0: System, net: RawNet, j: nat, t: System, a: Asked)
    requires OthersKept(s0, net) && j < |net.asked| && a.x == net.asked[j].x < |s0.servers|
    requires |t.servers| == |net.sys.servers| && t.servers == net.sys.servers[a.x := t.servers[a.x]]
    ensures OthersKept(s0, Net(t, net.asked[j := a]))
  {
    var asked := net.asked[j := a];
    forall x | 0 <= x < |s0.servers|
      ensures Addressed(asked, x) || Kept(s0.servers[x].prov, t.servers[x].prov)
    {
      if k :| 0 <= k < |net.asked| && net.asked[k].x == x {
        assert asked[k].x == x;
      } else {
        assert !Addressed(net.asked, x) && x != a.x;
      }
    }
  }

  lemma {:induction false} AdvanceKeepsNews(s0: System, net: RawNet, name: string, j: nat)
    requires Sound(net.sys) && Calm(s0, net.sys) && AllNews(s0, net)
    requires j < |net.asked| && !net.asked[j].st.Answered? && net.asked[j].x < |s0.servers|
    requires var a, p := net.asked[j], net.sys.servers[net.asked[j].x].prov; Enabled(p, Going(p, a, name))
    ensures var a, p := net.asked[j], net.sys.servers[net.asked[j].x].prov;
            AllNews(s0, net.(asked := net.asked[j := Gone(p, a, name)]))
  {
    var a, p := net.asked[j], net.sys.servers[net.asked[j].x].prov;
    var asked := net.asked[j := Gone(p, a, name)];
    NewsOf(s0, net.sys, p, a, name);
    forall k | 0 <= k < |asked|
      ensures News(s0, net.sys, asked[k])
    {
      assert News(s0, net.sys, net.asked[k]);
    }
  }

  lemma {:induction false} AdvanceKeeps(s0: System, net: Net, name: string, j: nat)
    requires Ready(s0, name) && NetOk(s0, net, name)
    ensures NetOk(s0, Advance(net, name, j), name)
  {
    if j < |net.asked| && !net.asked[j].st.Answered? {
      var a, p := net.asked[j], net.sys.servers[net.asked[j].x].prov;
      var e := Going(p, a, name);
      AdvanceKeepsLocal(s0, net, name, j);
      var t := Take(net.sys, a.x, e);
      TakeKeepsSound(net.sys, a.x, e);
      CalmTrans(s0, net.sys, t);
      AdvanceKeepsOthers(s0, net, j, t, Gone(p, a, name));
      AdvanceKeepsNews(s0, net, name, j);
      NewsStays(s0, net.sys, t, net.asked[j := Gone(p, a, name)]);
    }
  }

  // ----- Whole fan-outs -----

  lemma {:induction false} PlayItemKeeps(s0: System, net: Net, name: string, item: Item)
    requires Ready(s0, name) && NetOk(s0, net, name)
    ensures NetOk(s0, PlayItem(net, name, item), name)
  {
    match item
    case Surroundings(m) =>
      if MembershipMove(m) && Possible(net.sys, m) { SurroundingsKeep(s0, net, name, m); }
    case Progress(j) => AdvanceKeeps(s0, net, name, j);
  }

  /** How many steps a request still has to take, at most. */
  function StepsLeft(st: Status): nat {
    match st
    case Sent => 3
    case InBackend(_) => 2
    case Waking(_) => 1
    case Answered(_) => 0
  }

  lemma {:induction false} AdvanceProgresses(s0: System, net: Net, name: string, j: nat)
    requires Ready(s0, name) && NetOk(s0, net, name) && j < |net.asked|
    ensures var after := Advance(net, name, j).asked[j];
            after.st.Answered? || StepsLeft(after.st) < StepsLeft(net.asked[j].st)
  {
    if !net.asked[j].st.Answered? { AdvanceKeepsLocal(s0, net, name, j); }
  }

  function Left(net: Net, j: nat): nat {
    if j < |net.asked| then StepsLeft(net.asked[j].st) else 0
  }

  lemma {:induction false} DriveOnce(s0: System, name: string, n: nat, j: nat, net: Net)
    requires Ready(s0, name) && j < n
    ensures StepsDown(Player(name), (net: Net) => StillOk(s0, name, n, net), (net: Net) => Left(net, j),
        Driver()(j), net)
  {
    if StillOk(s0, name, n, net) {
      AdvanceKeeps(s0, net, name, j);
      AdvanceProgresses(s0, net, name, j);
    }
  }

  /** Requests stay the same but for what they saw and where they are, and those
      that were answered stay entirely the same. */
  ghost predicate SameAsked(before: seq<Asked>, after: seq<Asked>) {
    && |before| == |after|
    && forall j :: 0 <= j < |before| ==>
         && after[j].x == before[j].x && after[j].r == before[j].r && after[j].b == before[j].b
         && (before[j].st.Answered? ==> after[j] == before[j])
  }

  lemma {:induction false} SameTrans(a: seq<Asked>, b: seq<Asked>, c: seq<Asked>)
    requires SameAsked(a, b) && SameAsked(b, c)
    ensures SameAsked(a, c)
  {
  }

  lemma {:induction false} ItemSame(net: Net, name: string, item: Item)
    ensures SameAsked(net.asked, PlayItem(net, name, item).asked)
  {
  }

  /** Playing changes no request that was answered. */
  lemma {:induction false} PlaySame(net: Net, name: string, items: seq<Item>)
    ensures SameAsked(net.asked, PlayAll(net, name, items).asked)
  {
    var same := (after: Net) => SameAsked(net.asked, after.asked);
    forall after: Net, item
      ensures KeepsAt(Player(name), same, after, item)
    {
      ItemSame(after, name, item);
      if same(after) { SameTrans(net.asked, after.asked, PlayItem(after, name, item).asked); }
    }
    FoldKeeps(Player(name), same, net, items);
  }

  ghost predicate AnsweredUpTo(asked: seq<Asked>, n: nat) {
    n <= |asked| && forall j :: 0 <= j < n ==> asked[j].st.Answered?
  }

  ghost predicate AnsweredAt(net: Net, j: nat) {
    j < |net.asked| && net.asked[j].st.Answered?
  }

  lemma {:induction false} NothingLeft(after: Net, net: Net, j: nat)
    requires j < |net.asked| == |after.asked| && Left(after, j) == 0
    ensures AnsweredAt(after, j)
  {
  }

  ghost predicate StillOk(s0: System, name: string, n: nat, net: Net) {
    NetOk(s0, net, name) && |net.asked| == n
  }

  lemma {:induction false} PlayingKeeps(s0: System, name: string, n: nat)
    requires Ready(s0, name)
    ensures Keeps(Player(name), (net: Net) => StillOk(s0, name, n, net))
  {
    var ok := (net: Net) => StillOk(s0, name, n, net);
    forall net: Net, item
      ensures KeepsAt(Player(name), ok, net, item)
    {
      if ok(net) { PlayItemKeeps(s0, net, name, item); }
    }
  }

  lemma {:induction false} AnswersStay(name: string)
    ensures ForGood(Player(name), AnsweredAt)
  {
    forall net: Net, item, j: nat
      ensures StaysAt(Player(name), AnsweredAt, net, item, j)
    {
      ItemSame(net, name, item);
    }
  }

  lemma {:induction false} DrivingEnds(s0: System, name: string, n: nat, j: nat)
    requires Ready(s0, name) && j < n
    ensures Ends(Player(name), (net: Net) => StillOk(s0, name, n, net), AnsweredAt, Driver()(j), j)
  {
    var ok := (net: Net) => StillOk(s0, name, n, net);
    forall net: Net
      ensures EndsAt(Player(name), ok, AnsweredAt, Driver()(j), j, net)
    {
      if ok(net) {
        var left := (net: Net) => Left(net, j);
        forall t: Net
          ensures StepsDown(Player(name), ok, left, Driver()(j), t)
        {
          DriveOnce(s0, name, n, j, t);
        }
        ThreeSteps(Player(name), ok, left, Driver()(j), net);
        NothingLeft(Player(name)(Player(name)(Player(name)(net, Driver()(j)), Driver()(j)), Driver()(j)), net, j);
      }
    }
  }

  /** While the client waits for n replies the invariant holds, and then they are there. */
  lemma {:induction false} RepliesCome(s0: System, net: Net, name: string, before: nat -> seq<Item>, n: nat)
    requires Ready(s0, name) && NetOk(s0, net, name) && n <= |net.asked|
    ensures NetOk(s0, AfterReplies(net, name, before, n), name)
    ensures forall j: nat :: j < n ==> AnsweredAt(AfterReplies(net, name, before, n), j)
  {
    var ok := (after: Net) => StillOk(s0, name, |net.asked|, after);
    PlayingKeeps(s0, name, |net.asked|);
    AnswersStay(name);
    FoldKeeps(Player(name), ok, net, Schedule(before, Driver(), n));
    forall j: nat | j < n
      ensures AnsweredAt(AfterReplies(net, name, before, n), j)
    {
      DrivingEnds(s0, name, |net.asked|, j);
      ScheduleEnds(Player(name), ok, AnsweredAt, net, before, Driver(), n, j);
    }
  }

  /** Requests just sent. */
  lemma {:induction false} SentOk(s: System, asked: seq<Asked>, name: string)
    requires Ready(s, name) && Targets(asked, |s.servers|)
    requires forall j :: 0 <= j < |asked| ==> asked[j].st.Sent? && asked[j].seen == None && Asks(asked[j])
    ensures NetOk(s, Net(s, asked), name)
  {
    forall j | 0 <= j < |asked|
      ensures LocalAt(s, Net(s, asked), j, name)
    {
    }
  }

  /** When all were answered, no request is in flight any more. */
  lemma {:induction false} AnsweredReady(s0: System, net: Net, name: string)
    requires Ready(s0, name) && NetOk(s0, net, name) && AnsweredUpTo(net.asked, |net.asked|)
    ensures Ready(net.sys, name)
  {
    forall x | 0 <= x < |net.sys.servers|
      ensures Quiet(net.sys.servers[x].prov, name)
    {
      InvOf(net.sys, x);
      if x < |s0.servers| {
        if j :| 0 <= j < |net.asked| && net.asked[j].x == x {
          assert LocalAt(s0, net, j, name);
          AnsweredQuiet(s0.servers[x].prov, net.sys.servers[x].prov, net.asked[j], name);
        } else {
          assert !Addressed(net.asked, x) && Quiet(s0.servers[x].prov, name);
          KeptQuiet(s0.servers[x].prov, net.sys.servers[x].prov, name);
        }
      }
    }
  }

  lemma {:induction false} AnsweredQuiet(p0: Provider, p: Provider, a: Asked, name: string)
    requires Local(p0, p, a, name) && a.st.Answered? && Inv(p)
    ensures Quiet(p, name)
  {
    HandledQuiet(a.seen.value, name, a);
    KeptQuiet(Handled(a.seen.value, name, a), p, name);
  }

  lemma {:induction false} HandledQuiet(q: Provider, name: string, a: Asked)
    requires Quiet(q, name)
    ensures Quiet(Handled(q, name, a), name)
  {
    match a.r
    case Start(hash, k) => if Admit(q, name, a.r).Admitted? { WholeStartEffect(q, name, hash, k, a.b.Good?); }
    case Abort(k) => if Admit(q, name, a.r).Admitted? { WholeAbortEffect(q, name, k); }
    case _ =>
  }

  /** From the n-th reply to the next. */
  lemma {:induction false} NextReply(s0: System, net: Net, name: string, before: nat -> seq<Item>, n: nat)
    requires Ready(s0, name) && NetOk(s0, net, name) && n < |net.asked|
    ensures var now, later := AfterReplies(net, name, before, n), AfterReplies(net, name, before, n + 1);
            && SameAsked(now.asked, later.asked) && |later.asked| == |net.asked|
            && AnsweredUpTo(now.asked, n) && AnsweredUpTo(later.asked, n + 1)
  {
    RepliesCome(s0, net, name, before, n);
    RepliesCome(s0, net, name, before, n + 1);
    TurnSame(net, name, before, n);
    PlaySame(net, name, Schedule(before, Driver(), n));
    UpTo(AfterReplies(net, name, before, n), n);
    UpTo(AfterReplies(net, name, before, n + 1), n + 1);
  }

  lemma {:induction false} UpTo(net: Net, n: nat)
    requires n <= |net.asked| && forall j: nat :: j < n ==> AnsweredAt(net, j)
    ensures AnsweredUpTo(net.asked, n)
  {
    forall j | 0 <= j < n
      ensures net.asked[j].st.Answered?
    {
      assert AnsweredAt(net, j);
    }
  }

  lemma {:induction false} TurnSame(net: Net, name: string, before: nat -> seq<Item>, n: nat)
    ensures SameAsked(AfterReplies(net, name, before, n).asked, AfterReplies(net, name, before, n + 1).asked)
  {
    var sofar, more := Schedule(before, Driver(), n), Until(before(n), Driver()(n));
    assert Schedule(before, Driver(), n + 1) == sofar + more;
    FoldConcat(Player(name), net, sofar, more);
    PlaySame(AfterReplies(net, name, before, n), name, more);
  }

  /** Requests to distinct providers, and all replies: what holds then. */
  lemma {:induction false} FanOutEnds(s0: System, net: Net, name: string, before: nat -> seq<Item>)
    requires Ready(s0, name) && NetOk(s0, net, name)
    ensures var after := AfterReplies(net, name, before, |net.asked|);
            && NetOk(s0, after, name) && Ready(after.sys, name)
            && SameAsked(net.asked, after.asked) && AnsweredUpTo(after.asked, |net.asked|)
  {
    var n := |net.asked|;
    RepliesCome(s0, net, name, before, n);
    PlaySame(net, name, Schedule(before, Driver(), n));
    var after := AfterReplies(net, name, before, n);
    forall j | 0 <= j < n
      ensures after.asked[j].st.Answered?
    {
      assert AnsweredAt(after, j);
    }
    AnsweredReady(s0, after, name);
  }
}

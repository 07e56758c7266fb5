/** Requests sent to several providers at once.  Each is a small state machine;
    the providers handle them in any interleaving, while servers join and leave
    and announcements arrive. */
module Requests {
  import opened Words
  import opened GroupHash
  import opened ProviderSpec
  import opened ProviderRuns
  import opened ProviderWhole
  import opened Elastic
  import opened Folds

  /** What a backend's start answers: success, or a failure with its own code. */
  datatype BackendResult = Good | Bad(code: int)

  datatype Status =
    | Sent                          // on its way
    | InBackend(h: nat)             // admitted; its backend call has not returned
    | Waking(h: nat)                // about to call notify_all
    | Answered(reply: Option<int>)  // an error code, or None for success

  /** A start or abort request to provider x; `seen` is the provider as the
      request found it. */
  datatype Asked = Asked(x: nat, r: Request, b: BackendResult, seen: Option<Provider>, st: Status)

  datatype RawNet = Net(sys: System, asked: seq<Asked>)

  /** The group, and the requests that a client has sent. */
  type Net = net: RawNet | SysWf(net.sys) witness Net(System([], 0), [])

  /** What happens next: a membership move, or request j goes one step on. */
  datatype Item = Surroundings(m: Move) | Progress(j: nat)

  /** What the backend's result makes of the reply. */
  function ReplyAfter(r: Request, b: BackendResult): Option<int> {
    if r.Start? && b.Bad? then Some(b.code) else None
  }

  /** The reply to a request; None is success. */
  function ReplyOf(p: Provider, name: string, r: Request, b: BackendResult): Option<int>
    requires Wf(p)
  {
    match Admit(p, name, r)
    case Refused(code) => Some(code)
    case Admitted(_) => ReplyAfter(r, b)
  }

  // ----- Steps -----

  /** Joins, announcements, address resolution, and leave requests with their
      consequences. */
  predicate MembershipMove(m: Move) {
    !m.At? || m.e.LeaveReq? || m.e.LeaveWake?
  }

  /** Provider x takes a step of a request. */
  function Take(s: System, x: nat, e: Event): (t: System)
    requires SysWf(s) && x < |s.servers| && Enabled(s.servers[x].prov, e)
    ensures SysWf(t) && |t.servers| == |s.servers|
  {
    s.(servers := s.servers[x := s.servers[x].(prov := Next(s.servers[x].prov, e))])
  }

  /** The event by which a request goes on. */
  function Going(p: Provider, a: Asked, name: string): Event
    requires !a.st.Answered?
  {
    match a.st
    case Sent => Req(name, a.r)
    case InBackend(h) => BackendRet(h, a.b.Good?)
    case Waking(h) => NotifyAll(h)
  }

  /** The request after that step. */
  function Gone(p: Provider, a: Asked, name: string): Asked
    requires Wf(p) && !a.st.Answered? && Enabled(p, Going(p, a, name))
  {
    match a.st
    case Sent =>
      a.(seen := Some(p),
         st := match Admit(p, name, a.r)
               case Admitted(_) => InBackend(|p.handlers|)
               case Refused(code) => Answered(Some(code)))
    case InBackend(h) =>
      a.(st := if Next(p, BackendRet(h, a.b.Good?)).handlers[h].pc.Notifying? then Waking(h)
               else Answered(ReplyAfter(a.r, a.b)))
    case Waking(_) => a.(st := Answered(ReplyAfter(a.r, a.b)))
  }

  /** Request j goes one step on, if it can. */
  function Advance(net: Net, name: string, j: nat): (after: Net)
    ensures |after.asked| == |net.asked|
  {
    if j >= |net.asked| || net.asked[j].x >= |net.sys.servers| then net
    else
      var a := net.asked[j];
      var p := net.sys.servers[a.x].prov;
      if a.st.Answered? || !Enabled(p, Going(p, a, name)) then net
      else Net(Take(net.sys, a.x, Going(p, a, name)), net.asked[j := Gone(p, a, name)])
  }

  function PlayItem(net: Net, name: string, item: Item): (after: Net)
    ensures |after.asked| == |net.asked|
  {
    match item
    case Surroundings(m) =>
      if MembershipMove(m) && Possible(net.sys, m) then net.(sys := Step(net.sys, m)) else net
    case Progress(j) => Advance(net, name, j)
  }

  function Player(name: string): (Net, Item) -> Net {
    (net: Net, item: Item) => PlayItem(net, name, item)
  }

  function PlayAll(net: Net, name: string, items: seq<Item>): Net {
    Fold(Player(name), net, items)
  }

  function Driver(): nat -> Item {
    (j: nat) => Progress(j)
  }

  /** The client waits for the first n replies, one after the other; before each
      of them anything happens. */
  function AfterReplies(net: Net, name: string, before: nat -> seq<Item>, n: nat): Net {
    PlayAll(net, name, Schedule(before, Driver(), n))
  }

  /** Joins, deliveries, resolutions, and turns of a leave request. */
  ghost predicate OfMembership(ms: seq<Move>) {
    forall n :: 0 <= n < |ms| ==>
      ms[n].Join? || ms[n].Deliver? || ms[n].Resolve? || (ms[n].At? && (ms[n].e.LeaveReq? || ms[n].e.LeaveWake?))
  }

  function Around(ms: seq<Move>): seq<Item> {
    seq(|ms|, n requires 0 <= n < |ms| => Surroundings(ms[n]))
  }

  lemma {:induction false} PlayOneFirst(net: Net, name: string, item: Item, items: seq<Item>)
    ensures PlayAll(net, name, [item] + items) == PlayAll(PlayItem(net, name, item), name, items)
  {
    FoldConcat(Player(name), net, [item], items);
    assert [item][..0] == [];
    assert PlayAll(net, name, [item]) == PlayItem(net, name, item);
  }

  lemma {:induction false} AroundCons(ms: seq<Move>)
    requires ms != []
    ensures Around(ms) == [Surroundings(ms[0])] + Around(ms[1..])
  {
  }

  /** Whatever run of membership moves the group can make, it can make while requests
      are outstanding, and these do not change by it. */
  lemma {:induction false} AnyMovesArePlayed(net: Net, name: string, ms: seq<Move>)
    requires LegalMoves(net.sys, ms) && OfMembership(ms)
    ensures PlayAll(net, name, Around(ms)) == Net(Elastic.Play(net.sys, ms), net.asked)
    decreases |ms|
  {
    if ms != [] {
      AroundCons(ms);
      PlayOneFirst(net, name, Surroundings(ms[0]), Around(ms[1..]));
      AnyMovesArePlayed(Net(Step(net.sys, ms[0]), net.asked), name, ms[1..]);
    }
  }

  // ----- The measure of outstanding news -----

  function Backlog(servers: seq<Server>): nat {
    if servers == [] then 0 else Backlog(servers[..|servers| - 1]) + |servers[|servers| - 1].inbox|
  }

  lemma {:induction false} BacklogUpdate(servers: seq<Server>, i: nat, v: Server)
    requires i < |servers|
    ensures Backlog(servers[i := v]) == Backlog(servers) - |servers[i].inbox| + |v.inbox|
    ensures |servers[i].inbox| <= Backlog(servers)
  {
    var last := |servers| - 1;
    if i == last {
      assert servers[i := v][..last] == servers[..last];
    } else {
      BacklogUpdate(servers[..last], i, v);
      assert servers[i := v][..last] == servers[..last][i := v];
    }
  }

  /** The measure (membership events left, announcements outstanding) did not grow;
      and as long as no event happened the membership is the same. */
  ghost predicate Calm(s: System, t: System) {
    && |s.servers| <= |t.servers| && t.budget <= s.budget
    && (t.budget == s.budget ==>
          && |t.servers| == |s.servers|
          && Backlog(t.servers) <= Backlog(s.servers)
          && forall i :: 0 <= i < |s.servers| ==>
               t.servers[i].id == s.servers[i].id && t.servers[i].prov.left == s.servers[i].prov.left)
  }

  ghost predicate Less(t: System, s: System) {
    t.budget < s.budget || (t.budget == s.budget && Backlog(t.servers) < Backlog(s.servers))
  }

  lemma {:induction false} CalmTrans(s: System, t: System, u: System)
    requires Calm(s, t) && Calm(t, u)
    ensures Calm(s, u)
  {
  }

  // ----- What membership moves leave alone -----

  /** The pipelines, handlers and counter of a provider are as they were. */
  ghost predicate Kept(p: Provider, q: Provider) {
    && q.objs == p.objs && q.handlers == p.handlers && q.count == p.count
    && (q.names == p.names || q.left)
    && (p.left ==> q.left)
  }

  ghost predicate Small(p: Provider) {
    |p.objs| < TWO64
  }

  /** The group is consistent. */
  ghost predicate Sound(s: System) {
    SysInv(s) && SysWf(s) && forall i :: 0 <= i < |s.servers| ==> Small(s.servers[i].prov)
  }

  /** ... and no lifecycle request is in flight on the pipelines of that name. */
  ghost predicate Ready(s: System, name: string) {
    Sound(s) && forall i :: 0 <= i < |s.servers| ==> Quiet(s.servers[i].prov, name)
  }

  lemma {:induction false} InvOf(s: System, i: nat)
    requires Sound(s) && i < |s.servers|
    ensures Inv(s.servers[i].prov) && Small(s.servers[i].prov) && Wf(s.servers[i].prov)
  {
    assert ServerOk(s.servers[i], ViewHash(s.servers), Group(s.servers));
  }

  lemma {:induction false} KeptQuiet(p: Provider, q: Provider, name: string)
    requires Quiet(p, name) && Kept(p, q) && Inv(q)
    ensures Quiet(q, name)
  {
  }

  lemma {:induction false} KeptTrans(p: Provider, q: Provider, r: Provider)
    requires Kept(p, q) && Kept(q, r)
    ensures Kept(p, r)
  {
  }

  /** All providers of s are as they were, in t; a newcomer has no pipelines. */
  ghost predicate AllKept(s: System, t: System) {
    && |s.servers| <= |t.servers|
    && (forall i :: 0 <= i < |s.servers| ==> Kept(s.servers[i].prov, t.servers[i].prov))
    && (forall i :: |s.servers| <= i < |t.servers| ==> t.servers[i].prov.objs == [])
  }

  lemma {:induction false} LeaveTurn(p: Provider, e: Event)
    requires Inv(p) && Enabled(p, e) && (e.LeaveReq? || e.LeaveWake?)
    ensures Kept(p, Next(p, e))
  {
  }

  lemma {:induction false} AnnounceKeeps(servers: seq<Server>, c: Change)
    ensures |Announce(servers, c)| == |servers|
    ensures forall i :: 0 <= i < |servers| ==>
              Announce(servers, c)[i].prov == servers[i].prov && Announce(servers, c)[i].id == servers[i].id
  {
  }

  lemma {:induction false} DepartureKeeps(s: System, m: Move)
    requires Sound(s) && MembershipMove(m) && m.At? && Possible(s, m) && Departs(s, m)
    ensures Sound(Step(s, m)) && Calm(s, Step(s, m)) && AllKept(s, Step(s, m))
  {
    var t, v := Step(s, m), s.servers[m.s];
    InvOf(s, m.s);
    StepKeepsInv(s, m);
    LeaveTurn(v.prov, m.e);
    AnnounceKeeps(s.servers[m.s := v.(prov := Next(v.prov, m.e), inbox := [])], GroupHash.Departed(v.id));
    forall j | 0 <= j < |t.servers|
      ensures Kept(s.servers[j].prov, t.servers[j].prov) && Small(t.servers[j].prov)
    {
      assert Small(s.servers[j].prov);
    }
  }

  lemma {:induction false} JoinKeeps(s: System, id: Id)
    requires Sound(s) && Possible(s, Join(id))
    ensures Sound(Step(s, Join(id))) && Calm(s, Step(s, Join(id))) && AllKept(s, Step(s, Join(id)))
  {
    var t := Step(s, Join(id));
    StepKeepsInv(s, Join(id));
    AnnounceKeeps(s.servers, GroupHash.Joined(id));
    forall j | 0 <= j < |t.servers|
      ensures Small(t.servers[j].prov)
    {
      if j < |s.servers| { assert Small(s.servers[j].prov); }
    }
  }

  /** One server changed, but not whether it is a member. */
  ghost predicate OneChanged(s: System, t: System, i: nat) {
    && i < |s.servers| == |t.servers| && t.budget == s.budget
    && t.servers == s.servers[i := t.servers[i]]
    && t.servers[i].id == s.servers[i].id && t.servers[i].prov.left == s.servers[i].prov.left
    && |t.servers[i].inbox| <= |s.servers[i].inbox|
  }

  lemma {:induction false} OneChangedCalm(s: System, t: System, i: nat)
    requires OneChanged(s, t, i)
    ensures Calm(s, t)
    ensures |t.servers[i].inbox| < |s.servers[i].inbox| ==> Less(t, s)
  {
    BacklogUpdate(s.servers, i, t.servers[i]);
  }

  lemma {:induction false} OneChangedSound(s: System, t: System, i: nat)
    requires Sound(s) && OneChanged(s, t, i) && SysInv(t) && SysWf(t) && Small(t.servers[i].prov)
    ensures Sound(t)
  {
    forall j | 0 <= j < |t.servers|
      ensures Small(t.servers[j].prov)
    {
      assert Small(s.servers[j].prov);
    }
  }

  lemma {:induction false} OneKept(s: System, t: System, i: nat)
    requires OneChanged(s, t, i) && Kept(s.servers[i].prov, t.servers[i].prov)
    ensures AllKept(s, t)
  {
  }

  lemma {:induction false} StayKeeps(s: System, m: Move, i: nat)
    requires Sound(s) && MembershipMove(m) && Possible(s, m) && !m.Join?
    requires (m.At? ==> !Departs(s, m)) && i == m.s
    ensures Sound(Step(s, m)) && Calm(s, Step(s, m)) && AllKept(s, Step(s, m))
    ensures m.Deliver? ==> Less(Step(s, m), s)
  {
    var t := Step(s, m);
    StepKeepsInv(s, m);
    StayChangesOne(s, m, i);
    OneChangedCalm(s, t, i);
    OneChangedSound(s, t, i);
    OneKept(s, t, i);
  }

  lemma {:induction false} StayChangesOne(s: System, m: Move, i: nat)
    requires Sound(s) && MembershipMove(m) && Possible(s, m) && !m.Join?
    requires (m.At? ==> !Departs(s, m)) && i == m.s
    ensures var t := Step(s, m);
            && OneChanged(s, t, i) && Kept(s.servers[i].prov, t.servers[i].prov) && Small(t.servers[i].prov)
            && (m.Deliver? ==> |t.servers[i].inbox| < |s.servers[i].inbox|)
  {
    InvOf(s, i);
    if m.At? { LeaveTurn(s.servers[i].prov, m.e); LeftStays(s.servers[i].prov, m.e); }
  }

  /** A membership move changes no pipeline and no counter, and does not raise the
      measure; a delivery lowers it. */
  lemma {:induction false} MoveKeeps(s: System, m: Move)
    requires Sound(s) && MembershipMove(m) && Possible(s, m)
    ensures Sound(Step(s, m)) && Calm(s, Step(s, m)) && AllKept(s, Step(s, m))
    ensures m.Deliver? ==> Less(Step(s, m), s)
  {
    if m.Join? {
      JoinKeeps(s, m.id);
    } else if m.At? && Departs(s, m) {
      DepartureKeeps(s, m);
    } else {
      StayKeeps(s, m, m.s);
    }
  }

  // ----- One request on one provider -----

  /** The provider q after the request was handled to its end. */
  function Handled(q: Provider, name: string, a: Asked): (p: Provider)
    requires Wf(q)
    ensures Wf(p)
  {
    match a.r
    case Start(hash, k) => WholeStart(q, name, hash, k, a.b.Good?)
    case Abort(k) => WholeAbort(q, name, k)
    case _ => q
  }

  /** The request found a provider whose pipelines were as in p0. */
  ghost predicate SeenBy(p0: Provider, a: Asked, name: string) {
    a.seen.Some? && Kept(p0, a.seen.value) && Quiet(a.seen.value, name)
  }

  ghost predicate Asks(a: Asked) {
    a.r.Start? || (a.r.Abort? && a.b.Good?)
  }

  /** The provider was p0 when the request was sent and is p now: but for the
      membership, it is where the request alone would have brought it. */
  ghost predicate Local(p0: Provider, p: Provider, a: Asked, name: string) {
    && Asks(a)
    && match a.st
       case Sent => a.seen == None && Kept(p0, p)
       case InBackend(h) =>
         && SeenBy(p0, a, name) && Admit(a.seen.value, name, a.r).Admitted? && h == |a.seen.value.handlers|
         && Kept(Next(a.seen.value, Req(name, a.r)), p)
       case Waking(h) =>
         && SeenBy(p0, a, name) && Admit(a.seen.value, name, a.r).Admitted? && h == |a.seen.value.handlers|
         && Returning(a, name).handlers[h].pc.Notifying? && Kept(Returning(a, name), p)
       case Answered(reply) =>
         && SeenBy(p0, a, name) && reply == ReplyOf(a.seen.value, name, a.r, a.b)
         && Kept(Handled(a.seen.value, name, a), p)
  }

  /** The provider after the backend call returned. */
  ghost function Returning(a: Asked, name: string): (q: Provider)
    requires a.seen.Some? && Wf(a.seen.value) && Asks(a) && Admit(a.seen.value, name, a.r).Admitted?
    ensures |a.seen.value.handlers| < |q.handlers|
  {
    Next(Next(a.seen.value, Req(name, a.r)), BackendRet(|a.seen.value.handlers|, a.b.Good?))
  }

  lemma {:induction false} KeptStep(p: Provider, q: Provider, e: Event)
    requires Kept(p, q) && Wf(p) && Wf(q) && Enabled(p, e) && (e.BackendRet? || e.NotifyAll?)
    ensures Enabled(q, e) && Kept(Next(p, e), Next(q, e))
  {
  }

  lemma {:induction false} KeptLocal(p0: Provider, p: Provider, q: Provider, a: Asked, name: string)
    requires Local(p0, p, a, name) && Kept(p, q)
    ensures Local(p0, q, a, name)
  {
  }

  lemma {:induction false} LocalArrives(p0: Provider, p: Provider, a: Asked, name: string)
    requires Quiet(p0, name) && Local(p0, p, a, name) && Inv(p) && Small(p) && a.st.Sent?
    ensures Serial(p, Req(name, a.r)) && Local(p0, Next(p, Req(name, a.r)), Gone(p, a, name), name)
  {
    KeptQuiet(p0, p, name);
  }

  lemma {:induction false} LocalReturns(p0: Provider, p: Provider, a: Asked, name: string)
    requires Quiet(p0, name) && Local(p0, p, a, name) && Inv(p) && Small(p) && a.st.InBackend?
    ensures Enabled(p, Going(p, a, name))
    ensures Local(p0, Next(p, Going(p, a, name)), Gone(p, a, name), name)
  {
    var q := Next(a.seen.value, Req(name, a.r));
    KeptStep(q, p, BackendRet(a.st.h, a.b.Good?));
  }

  lemma {:induction false} LocalNotifies(p0: Provider, p: Provider, a: Asked, name: string)
    requires Quiet(p0, name) && Local(p0, p, a, name) && Inv(p) && Small(p) && a.st.Waking?
    ensures Enabled(p, Going(p, a, name))
    ensures Local(p0, Next(p, Going(p, a, name)), Gone(p, a, name), name)
  {
    KeptStep(Returning(a, name), p, NotifyAll(a.st.h));
  }

  lemma {:induction false} LocalGoesOn(p0: Provider, p: Provider, a: Asked, name: string)
    requires Quiet(p0, name) && Local(p0, p, a, name) && Inv(p) && Small(p) && !a.st.Answered?
    ensures Enabled(p, Going(p, a, name)) && Serial(p, Going(p, a, name))
    ensures Local(p0, Next(p, Going(p, a, name)), Gone(p, a, name), name)
  {
    match a.st
    case Sent => LocalArrives(p0, p, a, name);
    case InBackend(_) => LocalReturns(p0, p, a, name);
    case Waking(_) => LocalNotifies(p0, p, a, name);
  }
}

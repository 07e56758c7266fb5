/** What holds in every state a provider can reach. */
module ProviderRuns {
  import opened Words
  import opened ProviderSpec

  /** A run in which every step is possible and the client is disciplined. */
  ghost predicate Legal(p: Provider, es: seq<Event>)
    requires Wf(p)
    decreases |es|
  {
    es == [] || (Enabled(p, es[0]) && Serial(p, es[0]) && Legal(Next(p, es[0]), es[1..]))
  }

  function Run(p: Provider, es: seq<Event>): (q: Provider)
    requires Wf(p) && Legal(p, es)
    ensures Wf(q) && |p.objs| <= |q.objs|
    decreases |es|
  {
    if es == [] then p else Run(Next(p, es[0]), es[1..])
  }

  /** The discipline is one lifecycle request in flight per pipeline, no more: a stage
      is always allowed, and any request when no handler is at work on its pipeline. */
  lemma {:induction false} OneInFlight(p: Provider, name: string, r: Request)
    requires Inv(p)
    ensures Serial(p, Req(name, r)) <==>
            r.Stage? || name !in p.names ||
            forall h :: 0 <= h < |p.handlers| && p.handlers[h].obj == p.names[name] ==> p.handlers[h].pc.Done?
  {
    if name in p.names {
      assert ObjOk(p, p.names[name]);
      forall h | 0 <= h < |p.handlers| && p.handlers[h].obj == p.names[name] && !p.handlers[h].pc.Done?
        ensures !p.objs[p.names[name]].owner.Free?
      {
        assert HandlerOk(p, h);
      }
    }
  }

  // ----- The counter of active pipelines -----

  /** In every reachable state the counter is the number of pipelines ever
      created that are active, plus the starts past their increment; and no
      wakeup of a sleeping leave is lost. */
  lemma {:induction false} RunKeepsInv(p: Provider, es: seq<Event>)
    requires Inv(p) && Legal(p, es) && |Run(p, es).objs| < TWO64
    ensures Inv(Run(p, es))
    decreases |es|
  {
    if es != [] {
      NextKeepsInv(p, es[0]);
      RunKeepsInv(Next(p, es[0]), es[1..]);
    }
  }

  /** The counter never wraps around: a step moves it by the change in the
      number of busy pipelines, as an integer. */
  lemma {:induction false} CounterNeverWraps(p: Provider, e: Event)
    requires Inv(p) && Enabled(p, e) && Serial(p, e) && |p.objs| < TWO64
    ensures -1 <= Next(p, e).count - p.count <= 1
    ensures Next(p, e).count - p.count == Busy(Next(p, e).objs) - Busy(p.objs)
  {
    NextKeepsInv(p, e);
    match e
    case Req(name, r) =>
      if Admit(p, name, r).Admitted? {
        var i := p.names[name];
        assert ObjOk(p, i);
        BusyUpdate(p.objs, i, Next(p, e).objs[i]);
      }
    case BackendRet(h, ok) =>
      var i := p.handlers[h].obj;
      assert ObjOk(p, i) && HandlerOk(p, h);
      BusyUpdate(p.objs, i, Next(p, e).objs[i]);
    case _ =>
  }

  /** In every reachable state in which leave has proceeded, no pipeline is
      active and no start is past its increment. */
  lemma {:induction false} LeaveGate(p: Provider, es: seq<Event>)
    requires Inv(p) && Legal(p, es) && |Run(p, es).objs| < TWO64 && Run(p, es).left
    ensures forall i :: 0 <= i < |Run(p, es).objs| ==> !Run(p, es).objs[i].active
    ensures forall h :: 0 <= h < |Run(p, es).handlers| ==> !Run(p, es).handlers[h].pc.Starting?
  {
    var q := Run(p, es);
    RunKeepsInv(p, es);
    forall i | 0 <= i < |q.objs|
      ensures !q.objs[i].active && !q.objs[i].owner.StartingBy?
    {
      BusyZero(q.objs, i);
    }
    forall h | 0 <= h < |q.handlers|
      ensures !q.handlers[h].pc.Starting?
    {
      assert HandlerOk(q, h) && ObjOk(q, q.handlers[h].obj);
    }
  }

  /** A leave that sleeps although the counter is zero gets away: some handler is
      about to call notify_all, and the leave that it wakes proceeds. */
  lemma {:induction false} SleeperIsWoken(p: Provider, es: seq<Event>) returns (h: nat)
    requires Inv(p) && Legal(p, es) && |Run(p, es).objs| < TWO64
    requires Run(p, es).asleep > 0 && Run(p, es).count == 0
    ensures var q := Run(p, es);
            && Enabled(q, NotifyAll(h))
            && Enabled(Next(q, NotifyAll(h)), LeaveWake)
            && Next(Next(q, NotifyAll(h)), LeaveWake).left
  {
    RunKeepsInv(p, es);
    h :| 0 <= h < |Run(p, es).handlers| && Run(p, es).handlers[h].pc.Notifying?;
  }

  // ----- The counter against the pipelines that still have a name -----

  ghost predicate Named(p: Provider, i: nat) {
    exists n :: n in p.names && p.names[n] == i
  }

  /** The busy pipelines among the first n objects that the map still holds. */
  ghost function BusyNamed(p: Provider, n: nat): nat
    requires n <= |p.objs|
  {
    if n == 0 then 0
    else BusyNamed(p, n - 1) + if Named(p, n - 1) then Cost(p.objs[n - 1]) else 0
  }

  ghost predicate BusyOrphan(p: Provider, i: nat) {
    i < |p.objs| && !Named(p, i) && Cost(p.objs[i]) > 0
  }

  lemma {:induction false} NamedPart(p: Provider, n: nat)
    requires n <= |p.objs|
    ensures BusyNamed(p, n) <= Busy(p.objs[..n])
    ensures BusyNamed(p, n) == Busy(p.objs[..n]) <==> forall i :: 0 <= i < n ==> !BusyOrphan(p, i)
  {
    if n > 0 {
      NamedPart(p, n - 1);
      assert p.objs[..n][..n - 1] == p.objs[..n - 1];
      assert Busy(p.objs[..n]) == Busy(p.objs[..n - 1]) + Cost(p.objs[n - 1]);
      assert (forall i :: 0 <= i < n ==> !BusyOrphan(p, i)) <==>
             (forall i :: 0 <= i < n - 1 ==> !BusyOrphan(p, i)) && !BusyOrphan(p, n - 1);
    }
  }

  /** The counter is the count over the map exactly when no active or starting
      pipeline has lost its name. */
  lemma {:induction false} CounterMatchesMap(p: Provider)
    requires Inv(p)
    ensures p.count == BusyNamed(p, |p.objs|) <==> forall i :: 0 <= i < |p.objs| ==> !BusyOrphan(p, i)
  {
    NamedPart(p, |p.objs|);
    assert p.objs[..|p.objs|] == p.objs;
  }

  // ----- A started pipeline stays -----

  /** Pipeline i is installed under its name, active at iteration k, and its
      provider is still in the group. */
  ghost predicate Stable(p: Provider, name: string, k: u64, i: nat) {
    && !p.left
    && name in p.names && p.names[name] == i
    && i < |p.objs| && p.objs[i].active && p.objs[i].iteration == k
  }

  /** The steps that may end it: a cleanup that succeeds (explicit or automatic),
      an abort, or a re-creation of the same name. */
  ghost predicate Closes(p: Provider, e: Event, name: string, i: nat) {
    || e == Create(name)
    || (e.BackendRet? && e.h < |p.handlers| && p.handlers[e.h].obj == i &&
        (p.handlers[e.h].pc.Aborting? || (p.handlers[e.h].pc.Cleaning? && e.ok)))
  }

  lemma {:induction false} StableStep(p: Provider, e: Event, name: string, k: u64, i: nat)
    requires Inv(p) && Enabled(p, e) && Serial(p, e) && |p.objs| < TWO64
    requires Stable(p, name, k, i)
    ensures Stable(Next(p, e), name, k, i) <==> !Closes(p, e, name, i)
  {
    BusyZero(p.objs, i);
    if e.BackendRet? {
      assert HandlerOk(p, e.h) && ObjOk(p, p.handlers[e.h].obj);
    }
  }

  /** Whatever else happens meanwhile (joins, leave requests, other starts,
      creations and destructions of other names), a started pipeline stays
      active at k on a provider that stays in the group, until a closing step. */
  lemma {:induction false} StableUntilClosed(p: Provider, es: seq<Event>, name: string, k: u64, i: nat)
    returns (n: nat)
    requires Inv(p) && Legal(p, es) && |Run(p, es).objs| < TWO64
    requires Stable(p, name, k, i)
    ensures n <= |es| && LegalPrefix(p, es, n)
    ensures Stable(Run(p, es[..n]), name, k, i)
    ensures n < |es| ==> Closes(Run(p, es[..n]), es[n], name, i)
    decreases |es|
  {
    assert es[..0] == [];
    if es == [] || Closes(p, es[0], name, i) {
      n := 0;
    } else {
      NextKeepsInv(p, es[0]);
      StableStep(p, es[0], name, k, i);
      var m := StableUntilClosed(Next(p, es[0]), es[1..], name, k, i);
      n := m + 1;
      assert es[..n][1..] == es[1..][..m];
    }
  }

  /** A pipeline that was aborted at iteration 0 never starts again. */
  lemma {:induction false} ExhaustedForever(p: Provider, es: seq<Event>, i: nat)
    requires Inv(p) && Legal(p, es) && |Run(p, es).objs| < TWO64
    requires i < |p.objs| && !p.objs[i].active && p.objs[i].owner.Free? && p.objs[i].iteration == TWO64 - 1
    ensures Run(p, es).objs[i] == p.objs[i]
    decreases |es|
  {
    if es != [] {
      var e := es[0];
      if e.BackendRet? || e.NotifyAll? { assert HandlerOk(p, e.h); }
      NextKeepsInv(p, e);
      ExhaustedForever(Next(p, e), es[1..], i);
    }
  }

  ghost predicate LegalPrefix(p: Provider, es: seq<Event>, n: nat)
    requires Wf(p) && n <= |es|
  {
    Legal(p, es[..n])
  }
}

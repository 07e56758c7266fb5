/** Pipelines that lose their name while they are counted as active: how that
    comes about, and when it keeps the provider in the group for ever. */
module ProviderLeaks {
  import opened Words
  import opened ProviderSpec
  import opened ProviderRuns

  /** A step takes the only name of pipeline i away. */
  ghost predicate Takes(p: Provider, e: Event, i: nat) {
    && (e.Create? || e.Destroy?) && e.name in p.names && p.names[e.name] == i
    && forall n :: n in p.names && n != e.name ==> p.names[n] != i
  }

  /** A step leaves an active or starting pipeline without a name exactly when it
      re-creates that name or, while the pipeline is starting, destroys it. */
  lemma {:induction false} OrphansArise(p: Provider, e: Event, i: nat)
    requires Inv(p) && Enabled(p, e) && Serial(p, e) && |p.objs| < TWO64
    requires !BusyOrphan(p, i)
    ensures BusyOrphan(Next(p, e), i) <==>
            i < |p.objs| && Cost(p.objs[i]) > 0 && Takes(p, e, i) && (e.Destroy? ==> p.objs[i].owner.StartingBy?)
  {
    if e.Create? || e.Destroy? {
      NameTaken(p, e, i);
    } else {
      NameKept(p, e, i);
    }
  }

  lemma {:induction false} NameTaken(p: Provider, e: Event, i: nat)
    requires Inv(p) && Enabled(p, e) && (e.Create? || e.Destroy?) && !BusyOrphan(p, i)
    ensures BusyOrphan(Next(p, e), i) <==>
            i < |p.objs| && Cost(p.objs[i]) > 0 && Takes(p, e, i) && (e.Destroy? ==> p.objs[i].owner.StartingBy?)
  {
    var q := Next(p, e);
    if e.Create? {
      assert q.names[e.name] == |p.objs|;
      assert Named(q, |p.objs|);
    }
    if i < |p.objs| {
      assert ObjOk(p, i) && q.objs[i] == p.objs[i];
      NamesAfter(p, q, e.name, i);
    }
  }

  /** Only that name changes; it may still lead to i. */
  lemma {:induction false} NamesAfter(p: Provider, q: Provider, name: string, i: nat)
    requires forall n :: n != name ==> (n in q.names <==> n in p.names) && (n in q.names ==> q.names[n] == p.names[n])
    requires name in q.names ==> q.names[name] != i || (name in p.names && p.names[name] == i)
    ensures Named(q, i) <==>
            (name in q.names && q.names[name] == i) || exists n :: n in p.names && n != name && p.names[n] == i
  {
    if n :| n in q.names && q.names[n] == i {
      assert n == name || (n in p.names && p.names[n] == i);
    }
    if n :| n in p.names && n != name && p.names[n] == i {
      assert q.names[n] == i;
    }
  }

  lemma {:induction false} NameKept(p: Provider, e: Event, i: nat)
    requires Inv(p) && Enabled(p, e) && Serial(p, e) && !e.Create? && !e.Destroy? && !BusyOrphan(p, i)
    ensures !BusyOrphan(Next(p, e), i)
  {
    if i < |p.objs| {
      BusyZero(p.objs, i);
      if Named(p, i) {
        var n :| n in p.names && p.names[n] == i;
        assert n in Next(p, e).names ==> Named(Next(p, e), i);
      } else {
        NamelessStep(p, e, i);
      }
    }
  }

  /** What can happen to a pipeline without a name: a handler in flight on it
      goes on, nothing else. */
  lemma {:induction false} NamelessStep(p: Provider, e: Event, i: nat)
    requires Inv(p) && Enabled(p, e) && Serial(p, e)
    requires i < |p.objs| && !Named(p, i)
    ensures !Named(Next(p, e), i)
    ensures Next(p, e).objs[i] == p.objs[i] ||
            ((e.BackendRet? || e.NotifyAll?) && p.objs[i].owner ==
                (if p.objs[i].owner.StartingBy? then StartingBy(e.h) else HeldBy(e.h)))
    ensures Cost(p.objs[i]) == 0 ==> Cost(Next(p, e).objs[i]) == 0
  {
    if e.BackendRet? || e.NotifyAll? {
      assert HandlerOk(p, e.h) && ObjOk(p, p.handlers[e.h].obj);
    }
    if e.Req? && e.name in p.names {
      assert Named(p, p.names[e.name]);
    }
    forall n | n in Next(p, e).names
      ensures Next(p, e).names[n] != i
    {
      assert n in p.names && p.names[n] == i ==> Named(p, i);
    }
  }

  // ----- A count that cannot be given back -----

  /** A handler in flight on pipeline i can still give its count back. */
  predicate CanRelease(p: Provider, i: nat)
    requires i < |p.objs|
  {
    var owner := p.objs[i].owner;
    && !owner.Free? && owner.h < |p.handlers|
    && match p.handlers[owner.h].pc
       case Starting(_) => true
       case Executing(_, auto) => auto
       case Cleaning(_, _) => true
       case Aborting(_) => true
       case _ => false
  }

  ghost predicate Stuck(p: Provider, i: nat) {
    BusyOrphan(p, i) && !CanRelease(p, i)
  }

  lemma {:induction false} StuckStep(p: Provider, e: Event, i: nat)
    requires Inv(p) && Enabled(p, e) && Serial(p, e) && |p.objs| < TWO64 && Stuck(p, i)
    ensures Stuck(Next(p, e), i)
  {
    NamelessStep(p, e, i);
    assert ObjOk(p, i);
    if e.BackendRet? || e.NotifyAll? {
      assert HandlerOk(p, e.h) && ObjOk(p, p.handlers[e.h].obj);
    }
  }

  lemma {:induction false} StuckForever(p: Provider, es: seq<Event>, i: nat)
    requires Inv(p) && Legal(p, es) && |Run(p, es).objs| < TWO64 && Stuck(p, i)
    ensures Stuck(Run(p, es), i) && !Run(p, es).left
    decreases |es|
  {
    if es == [] {
      BusyZero(p.objs, i);
    } else {
      NextKeepsInv(p, es[0]);
      StuckStep(p, es[0], i);
      StuckForever(Next(p, es[0]), es[1..], i);
    }
  }

  // ----- Every other count can -----

  /** From p to q, only pipeline i and handlers on it changed. */
  ghost predicate OnlyAt(p: Provider, q: Provider, i: nat) {
    && Inv(q) && q.names == p.names && q.left == p.left
    && i < |p.objs| == |q.objs| && q.objs == p.objs[i := q.objs[i]]
    && |p.handlers| <= |q.handlers|
    && forall g :: 0 <= g < |p.handlers| && p.handlers[g].obj != i ==> q.handlers[g] == p.handlers[g]
  }

  /** One event more. */
  lemma {:induction false} RunSnoc(p: Provider, es: seq<Event>, e: Event)
    requires Wf(p) && Legal(p, es) && Enabled(Run(p, es), e) && Serial(Run(p, es), e)
    ensures Legal(p, es + [e]) && Run(p, es + [e]) == Next(Run(p, es), e)
    decreases |es|
  {
    if es == [] {
      assert es + [e] == [e] && [e][1..] == [];
    } else {
      assert (es + [e])[1..] == es[1..] + [e];
      RunSnoc(Next(p, es[0]), es[1..], e);
    }
  }

  /** Handler h on pipeline i goes one step on. */
  lemma {:induction false} GoesOn(p: Provider, q: Provider, i: nat, h: nat, ok: bool) returns (e: Event)
    requires Inv(p) && |p.objs| < TWO64 && OnlyAt(p, q, i)
    requires h < |q.handlers| && q.handlers[h].obj == i && !q.handlers[h].pc.Done?
    requires h < |p.handlers| ==> p.handlers[h].obj == i
    ensures e == if q.handlers[h].pc.Notifying? then NotifyAll(h) else BackendRet(h, ok)
    ensures Enabled(q, e) && Serial(q, e) && OnlyAt(p, Next(q, e), i)
  {
    e := if q.handlers[h].pc.Notifying? then NotifyAll(h) else BackendRet(h, ok);
    NextKeepsInv(q, e);
  }

  /** The run es from p0 led to p, and more of it touched pipeline i only. */
  ghost predicate Reached(p0: Provider, es: seq<Event>, p: Provider, q: Provider, i: nat) {
    && Inv(p) && |p.objs| < TWO64 && OnlyAt(p, q, i)
    && Wf(p0) && Legal(p0, es) && Run(p0, es) == q
  }

  /** A pipeline with a name that nothing holds is closed by a cleanup. */
  lemma {:induction false} CloseByCleanup(p0: Provider, es: seq<Event>, p: Provider, q: Provider, i: nat,
                                          name: string) returns (fs: seq<Event>)
    requires Reached(p0, es, p, q, i)
    requires name in q.names && q.names[name] == i && q.objs[i].active && q.objs[i].owner.Free?
    ensures Legal(p0, fs) && OnlyAt(p, Run(p0, fs), i) && Cost(Run(p0, fs).objs[i]) == 0
  {
    var h, e := |q.handlers|, Req(name, Cleanup(q.objs[i].iteration));
    NextKeepsInv(q, e);
    RunSnoc(p0, es, e);
    var f := GoesOn(p, Next(q, e), i, h, true);
    RunSnoc(p0, es + [e], f);
    fs := es + [e] + [f];
  }

  /** A handler that can release the count does so. */
  lemma {:induction false} LetRelease(p0: Provider, es: seq<Event>, p: Provider, i: nat) returns (fs: seq<Event>)
    requires Reached(p0, es, p, p, i) && CanRelease(p, i)
    ensures Legal(p0, fs) && OnlyAt(p, Run(p0, fs), i) && Cost(Run(p0, fs).objs[i]) == 0
  {
    var h := p.objs[i].owner.h;
    assert ObjOk(p, i) && HandlerOk(p, h);
    var e := GoesOn(p, p, i, h, !p.handlers[h].pc.Starting?);
    RunSnoc(p0, es, e);
    fs := es + [e];
    if p.handlers[h].pc.Executing? {
      var f := GoesOn(p, Next(p, e), i, h, true);
      RunSnoc(p0, fs, f);
      fs := fs + [f];
    }
  }

  /** An active pipeline that still has a name can be closed. */
  lemma {:induction false} CloseNamed(p0: Provider, es: seq<Event>, p: Provider, i: nat, name: string)
    returns (fs: seq<Event>)
    requires Reached(p0, es, p, p, i) && Cost(p.objs[i]) > 0 && !CanRelease(p, i)
    requires name in p.names && p.names[name] == i
    ensures Legal(p0, fs) && OnlyAt(p, Run(p0, fs), i) && Cost(Run(p0, fs).objs[i]) == 0
  {
    var q, owner := p, p.objs[i].owner;
    assert ObjOk(p, i);
    fs := es;
    if !owner.Free? {
      assert HandlerOk(p, owner.h);
      var e := GoesOn(p, p, i, owner.h, true);
      RunSnoc(p0, es, e);
      q, fs := Next(p, e), es + [e];
    }
    fs := CloseByCleanup(p0, fs, p, q, i, name);
  }

  lemma {:induction false} ReleaseOne(p0: Provider, es: seq<Event>, p: Provider, i: nat) returns (fs: seq<Event>)
    requires Reached(p0, es, p, p, i) && Cost(p.objs[i]) > 0 && !Stuck(p, i)
    ensures Legal(p0, fs) && OnlyAt(p, Run(p0, fs), i) && Cost(Run(p0, fs).objs[i]) == 0
  {
    if CanRelease(p, i) {
      fs := LetRelease(p0, es, p, i);
    } else {
      var name :| name in p.names && p.names[name] == i;
      fs := CloseNamed(p0, es, p, i, name);
    }
  }

  lemma {:induction false} StillNotStuck(p: Provider, q: Provider, i: nat)
    requires Inv(p) && OnlyAt(p, q, i) && Cost(q.objs[i]) == 0 && Cost(p.objs[i]) > 0
    requires forall j: nat :: !Stuck(p, j)
    ensures forall j: nat :: !Stuck(q, j)
    ensures Busy(q.objs) < Busy(p.objs)
  {
    BusyUpdate(p.objs, i, q.objs[i]);
    forall j: nat
      ensures !Stuck(q, j)
    {
      if j < |p.objs| && j != i {
        assert !Stuck(p, j) && ObjOk(p, j);
        assert Named(q, j) <==> Named(p, j);
      }
    }
  }

  lemma {:induction false} BusyWitness(objs: seq<Obj>) returns (i: nat)
    requires Busy(objs) > 0
    ensures i < |objs| && Cost(objs[i]) > 0
  {
    if Cost(objs[|objs| - 1]) > 0 {
      i := |objs| - 1;
    } else {
      i := BusyWitness(objs[..|objs| - 1]);
    }
  }

  /** If nothing is stuck, a run can go on until every pipeline is closed. */
  lemma {:induction false} Drain(p0: Provider, es: seq<Event>, p: Provider) returns (fs: seq<Event>)
    requires Wf(p0) && Legal(p0, es) && p == Run(p0, es)
    requires Inv(p) && |p.objs| < TWO64 && forall i: nat :: !Stuck(p, i)
    ensures Legal(p0, fs) && Run(p0, fs).count == 0 && |Run(p0, fs).objs| == |p.objs|
    decreases Busy(p.objs)
  {
    if Busy(p.objs) == 0 {
      fs := es;
    } else {
      var i := BusyWitness(p.objs);
      assert p.objs[i := p.objs[i]] == p.objs;
      fs := ReleaseOne(p0, es, p, i);
      StillNotStuck(p, Run(p0, fs), i);
      fs := Drain(p0, fs, Run(p0, fs));
    }
  }

  ghost predicate LeavesAfter(p: Provider, es: seq<Event>)
    requires Wf(p)
  {
    Legal(p, es) && |Run(p, es).objs| < TWO64 && Run(p, es).left
  }

  /** A provider can still leave exactly when no active or starting pipeline has
      lost its name for good, with no handler in flight that could give its
      count back.  One such pipeline keeps the provider for ever. */
  lemma {:induction false} LeaksBlockLeave(p: Provider)
    requires Inv(p) && |p.objs| < TWO64
    ensures (exists es :: LeavesAfter(p, es)) <==> forall i: nat :: !Stuck(p, i)
  {
    if es :| LeavesAfter(p, es) {
      forall i: nat
        ensures !Stuck(p, i)
      {
        if Stuck(p, i) { StuckForever(p, es, i); }
      }
    }
    if forall i: nat :: !Stuck(p, i) {
      var es := Drain(p, [], p);
      RunSnoc(p, es, LeaveReq);
      assert LeavesAfter(p, es + [LeaveReq]);
    }
  }
}

/** The counter of active pipelines when clients keep no discipline: any number
    of lifecycle requests may be in flight on one pipeline. */
module ProviderRaces {
  import opened Words
  import opened ProviderSpec

  function Active(objs: seq<Obj>): nat {
    if objs == [] then 0
    else Active(objs[..|objs| - 1]) + if objs[|objs| - 1].active then 1 else 0
  }

  /** The starts between their increment of the counter and their outcome. */
  function InStart(handlers: seq<Handler>): nat {
    if handlers == [] then 0
    else InStart(handlers[..|handlers| - 1]) + if handlers[|handlers| - 1].pc.Starting? then 1 else 0
  }

  /** How far the counter is from what it should be. */
  function Error(p: Provider): int {
    p.count - Active(p.objs) - InStart(p.handlers)
  }

  lemma {:induction false} ActiveUpdate(objs: seq<Obj>, i: nat, o: Obj)
    requires i < |objs|
    ensures Active(objs[i := o]) == Active(objs) - (if objs[i].active then 1 else 0) + (if o.active then 1 else 0)
  {
    var last := |objs| - 1;
    if i == last {
      assert objs[i := o][..last] == objs[..last];
    } else {
      ActiveUpdate(objs[..last], i, o);
      assert objs[i := o][..last] == objs[..last][i := o];
    }
  }

  lemma {:induction false} InStartUpdate(handlers: seq<Handler>, h: nat, x: Handler)
    requires h < |handlers|
    ensures InStart(handlers[h := x]) ==
            InStart(handlers) - (if handlers[h].pc.Starting? then 1 else 0) + (if x.pc.Starting? then 1 else 0)
  {
    var last := |handlers| - 1;
    if h == last {
      assert handlers[h := x][..last] == handlers[..last];
    } else {
      InStartUpdate(handlers[..last], h, x);
      assert handlers[h := x][..last] == handlers[..last][h := x];
    }
  }

  lemma {:induction false} ActiveSnoc(objs: seq<Obj>, o: Obj)
    ensures Active(objs + [o]) == Active(objs) + if o.active then 1 else 0
  {
    assert (objs + [o])[..|objs|] == objs;
  }

  lemma {:induction false} InStartSnoc(handlers: seq<Handler>, x: Handler)
    ensures InStart(handlers + [x]) == InStart(handlers) + if x.pc.Starting? then 1 else 0
  {
    assert (handlers + [x])[..|handlers|] == handlers;
  }

  // ----- The two ways in which the counter goes wrong -----

  /** A start completes on a pipeline that is active already. */
  predicate StartsTwice(p: Provider, e: Event)
    requires Wf(p) && Enabled(p, e)
  {
    e.BackendRet? && p.handlers[e.h].pc.Starting? && e.ok && p.objs[p.handlers[e.h].obj].active
  }

  /** A cleanup or an abort completes on a pipeline that is closed already. */
  predicate ClosesTwice(p: Provider, e: Event)
    requires Wf(p) && Enabled(p, e)
  {
    e.BackendRet? && !p.objs[p.handlers[e.h].obj].active &&
    (p.handlers[e.h].pc.Aborting? || (p.handlers[e.h].pc.Cleaning? && e.ok))
  }

  /** By how much a step should move the counter. */
  function Due(p: Provider, e: Event): int
    requires Wf(p) && Enabled(p, e)
  {
    Active(Next(p, e).objs) + InStart(Next(p, e).handlers) - Active(p.objs) - InStart(p.handlers)
  }

  /** By how much it does, but for a wrap-around. */
  function Moves(p: Provider, e: Event): int
    requires Wf(p) && Enabled(p, e)
  {
    match e
    case Req(name, r) => if r.Start? && Admit(p, name, r).Admitted? then 1 else 0
    case BackendRet(h, ok) =>
      var pc := p.handlers[h].pc;
      if pc.Aborting? || (pc.Starting? && !ok) || (pc.Cleaning? && ok) then -1 else 0
    case _ => 0
  }

  function Wraps(p: Provider, e: Event): int
    requires Wf(p) && Enabled(p, e)
  {
    if Moves(p, e) == 1 && p.count + 1 == TWO64 then -1 else if Moves(p, e) == -1 && p.count == 0 then 1 else 0
  }

  lemma {:induction false} CounterMoves(p: Provider, e: Event)
    requires Wf(p) && Enabled(p, e)
    ensures Next(p, e).count == p.count + Moves(p, e) + Wraps(p, e) * TWO64
  {
  }

  lemma {:induction false} DueReturn(p: Provider, h: nat, ok: bool)
    requires Wf(p) && Enabled(p, BackendRet(h, ok))
    ensures var e := BackendRet(h, ok);
            Due(p, e) == Moves(p, e) - (if StartsTwice(p, e) then 1 else 0) + (if ClosesTwice(p, e) then 1 else 0)
  {
    var q, i := Resume(p, h, ok), p.handlers[h].obj;
    SettleCounts(p, q, h);
    ReturnChanges(p, h, ok);
  }

  lemma {:induction false} ReturnChanges(p: Provider, h: nat, ok: bool)
    requires Wf(p) && Enabled(p, BackendRet(h, ok))
    ensures var q, i, pc := Resume(p, h, ok), p.handlers[h].obj, p.handlers[h].pc;
            && !q.handlers[h].pc.Starting?
            && q.objs[i].active == if pc.Starting? && ok then true
                                   else if pc.Aborting? || (pc.Cleaning? && ok) then false
                                   else p.objs[i].active
  {
  }

  lemma {:induction false} DueStep(p: Provider, e: Event)
    requires Wf(p) && Enabled(p, e)
    ensures Due(p, e) == Moves(p, e) - (if StartsTwice(p, e) then 1 else 0) + (if ClosesTwice(p, e) then 1 else 0)
  {
    match e
    case Req(name, r) => if Admit(p, name, r).Admitted? { LaunchCounts(p, p.names[name], r); }
    case BackendRet(h, ok) => DueReturn(p, h, ok);
    case NotifyAll(h) => SettleCounts(p, Next(p, e), h);
    case Create(_) => ActiveSnoc(p.objs, FRESH_OBJ);
    case _ =>
  }

  /** Every step, from any state: the error grows by one when a start completes
      twice, shrinks by one when a closing does, and is otherwise the same; the
      counter may also wrap around. */
  lemma {:induction false} ErrorStep(p: Provider, e: Event)
    requires Wf(p) && Enabled(p, e)
    ensures Error(Next(p, e)) == Error(p) + (if StartsTwice(p, e) then 1 else 0)
                                 - (if ClosesTwice(p, e) then 1 else 0) + Wraps(p, e) * TWO64
  {
    CounterMoves(p, e);
    DueStep(p, e);
  }

  lemma {:induction false} LaunchCounts(p: Provider, i: nat, r: Request)
    requires Wf(p) && i < |p.objs|
    ensures Active(Launch(p, i, r).objs) == Active(p.objs)
    ensures InStart(Launch(p, i, r).handlers) == InStart(p.handlers) + if r.Start? then 1 else 0
  {
    ActiveUpdate(p.objs, i, Launch(p, i, r).objs[i]);
    if !r.Stage? { InStartSnoc(p.handlers, Handler(i, FirstPc(r))); }
  }

  lemma {:induction false} SettleCounts(p: Provider, q: Provider, h: nat)
    requires Wf(p) && h < |p.handlers| == |q.handlers| && |q.objs| == |p.objs|
    requires q.objs == p.objs[p.handlers[h].obj := q.objs[p.handlers[h].obj]]
    requires q.handlers == p.handlers[h := q.handlers[h]]
    ensures Active(q.objs) == Active(p.objs) - (if p.objs[p.handlers[h].obj].active then 1 else 0)
                              + (if q.objs[p.handlers[h].obj].active then 1 else 0)
    ensures InStart(q.handlers) == InStart(p.handlers) - (if p.handlers[h].pc.Starting? then 1 else 0)
                                   + (if q.handlers[h].pc.Starting? then 1 else 0)
  {
    ActiveUpdate(p.objs, p.handlers[h].obj, q.objs[p.handlers[h].obj]);
    InStartUpdate(p.handlers, h, q.handlers[h]);
  }

  /** The counter stays right in a backend's return exactly when that completes
      no start on an active pipeline and no closing on a closed one. */
  lemma {:induction false} ReturnKeepsCounter(p: Provider, h: nat, ok: bool)
    requires Wf(p) && Enabled(p, BackendRet(h, ok)) && Error(p) == 0
    ensures Error(Next(p, BackendRet(h, ok))) == 0 <==>
            !StartsTwice(p, BackendRet(h, ok)) && !ClosesTwice(p, BackendRet(h, ok))
  {
    ErrorStep(p, BackendRet(h, ok));
    BusyHandler(p, h);
  }

  lemma {:induction false} BusyHandler(p: Provider, h: nat)
    requires Wf(p) && h < |p.handlers|
    ensures p.handlers[h].pc.Starting? ==> InStart(p.handlers) > 0
    ensures p.objs[p.handlers[h].obj].active ==> Active(p.objs) > 0
  {
    InStartUpdate(p.handlers, h, Handler(0, Done));
    ActiveUpdate(p.objs, p.handlers[h].obj, FRESH_OBJ);
  }

  // ----- Whole runs -----

  /** A run in which every step is possible; nothing is asked of the clients. */
  ghost predicate Feasible(p: Provider, es: seq<Event>)
    requires Wf(p)
    decreases |es|
  {
    es == [] || (Enabled(p, es[0]) && Feasible(Next(p, es[0]), es[1..]))
  }

  function Play(p: Provider, es: seq<Event>): (q: Provider)
    requires Wf(p) && Feasible(p, es)
    ensures Wf(q)
    decreases |es|
  {
    if es == [] then p else Play(Next(p, es[0]), es[1..])
  }

  function StartedTwice(p: Provider, es: seq<Event>): (n: nat)
    requires Wf(p) && Feasible(p, es)
    ensures n <= |es|
    decreases |es|
  {
    if es == [] then 0
    else (if StartsTwice(p, es[0]) then 1 else 0) + StartedTwice(Next(p, es[0]), es[1..])
  }

  function ClosedTwice(p: Provider, es: seq<Event>): (n: nat)
    requires Wf(p) && Feasible(p, es)
    ensures n <= |es|
    decreases |es|
  {
    if es == [] then 0
    else (if ClosesTwice(p, es[0]) then 1 else 0) + ClosedTwice(Next(p, es[0]), es[1..])
  }

  lemma {:induction false} ErrorOverRun(p: Provider, es: seq<Event>) returns (wraps: int)
    requires Wf(p) && Feasible(p, es)
    ensures Error(Play(p, es)) == Error(p) + StartedTwice(p, es) - ClosedTwice(p, es) + wraps * TWO64
    decreases |es|
  {
    if es == [] {
      wraps := 0;
    } else {
      ErrorStep(p, es[0]);
      var rest := ErrorOverRun(Next(p, es[0]), es[1..]);
      wraps := Wraps(p, es[0]) + rest;
    }
  }

  /** Over any run of any clients, the counter is the number of active pipelines
      plus the starts past their increment exactly when as many starts as
      closings completed twice. */
  lemma {:induction false} CounterIsRightIff(hash: u64, es: seq<Event>)
    requires Feasible(NewProvider(hash), es) && |es| < TWO64
    ensures var q := Play(NewProvider(hash), es);
            q.count == Active(q.objs) + InStart(q.handlers) <==>
            StartedTwice(NewProvider(hash), es) == ClosedTwice(NewProvider(hash), es)
  {
    var p, q := NewProvider(hash), Play(NewProvider(hash), es);
    var wraps := ErrorOverRun(p, es);
    Sizes(p, es);
    ActiveBound(q.objs, q.handlers);
    var drift := StartedTwice(p, es) - ClosedTwice(p, es);
    assert 0 < drift + TWO64 && drift < TWO64;
    NoMultiple(Error(q), drift, wraps);
  }

  lemma {:induction false} NoMultiple(error: int, drift: int, wraps: int)
    requires error == drift + wraps * TWO64 && 0 < drift + TWO64 && drift < TWO64
    requires 0 < error + TWO64 && error < TWO64
    ensures error == 0 <==> drift == 0
  {
    if wraps >= 1 { assert wraps * TWO64 >= TWO64; }
    if wraps <= -1 { assert wraps * TWO64 + TWO64 <= 0; }
  }

  lemma {:induction false} Sizes(p: Provider, es: seq<Event>)
    requires Wf(p) && Feasible(p, es)
    ensures |Play(p, es).objs| + |Play(p, es).handlers| <= |p.objs| + |p.handlers| + |es|
    decreases |es|
  {
    if es != [] {
      Sizes(Next(p, es[0]), es[1..]);
    }
  }

  lemma {:induction false} ActiveBound(objs: seq<Obj>, handlers: seq<Handler>)
    ensures Active(objs) <= |objs| && InStart(handlers) <= |handlers|
    decreases |objs| + |handlers|
  {
    if objs != [] {
      ActiveBound(objs[..|objs| - 1], handlers);
    } else if handlers != [] {
      ActiveBound(objs, handlers[..|handlers| - 1]);
    }
  }

  // ----- Which second request can do harm -----

  /** A handler that will close its pipeline if its backend calls succeed. */
  predicate Closer(pc: Pc) {
    pc.Cleaning? || pc.Aborting? || (pc.Executing? && pc.autoCleanup)
  }

  /** While a start is in flight no second start, and while a closing request is
      in flight no second closing one. */
  ghost predicate Conflicts(p: Provider, i: nat, r: Request) {
    exists h :: 0 <= h < |p.handlers| && p.handlers[h].obj == i && Against(p.handlers[h].pc, r)
  }

  predicate Against(pc: Pc, r: Request) {
    !r.Stage? && ((pc.Starting? && FirstPc(r).Starting?) || (Closer(pc) && Closer(FirstPc(r))))
  }

  ghost predicate HarmlessStep(p: Provider, e: Event)
    requires Wf(p)
  {
    e.Req? && Admit(p, e.name, e.r).Admitted? ==> !Conflicts(p, p.names[e.name], e.r)
  }

  ghost predicate HandlerTame(p: Provider, h: nat)
    requires Wf(p) && h < |p.handlers|
  {
    var pc, o := p.handlers[h].pc, p.objs[p.handlers[h].obj];
    (pc.Starting? ==> !o.active) && (Closer(pc) ==> o.active)
  }

  ghost predicate Rivals(p: Provider, g: nat, h: nat)
    requires g < |p.handlers| && h < |p.handlers|
  {
    && p.handlers[g].obj == p.handlers[h].obj
    && ((p.handlers[g].pc.Starting? && p.handlers[h].pc.Starting?)
        || (Closer(p.handlers[g].pc) && Closer(p.handlers[h].pc)))
  }

  /** No two handlers in flight compete to start, or to close, one pipeline. */
  ghost predicate Tame(p: Provider) {
    && Wf(p)
    && (forall h :: 0 <= h < |p.handlers| ==> HandlerTame(p, h))
    && (forall g, h :: 0 <= g < h < |p.handlers| ==> !Rivals(p, g, h))
  }

  lemma {:induction false} HarmlessKeepsTame(p: Provider, e: Event)
    requires Tame(p) && Enabled(p, e) && HarmlessStep(p, e)
    ensures Tame(Next(p, e)) && !StartsTwice(p, e) && !ClosesTwice(p, e)
  {
    match e
    case Req(name, r) => if Admit(p, name, r).Admitted? { LaunchTame(p, name, r); }
    case BackendRet(h, ok) => ReturnTame(p, h, ok);
    case NotifyAll(h) => SettledTame(p, Next(p, e), h);
    case _ => UntouchedTame(p, Next(p, e));
  }

  lemma {:induction false} UntouchedTame(p: Provider, q: Provider)
    requires Tame(p) && Wf(q) && q.handlers == p.handlers && |p.objs| <= |q.objs|
    requires forall i :: 0 <= i < |p.objs| ==> q.objs[i] == p.objs[i]
    ensures Tame(q)
  {
    forall h | 0 <= h < |q.handlers| ensures HandlerTame(q, h) { assert HandlerTame(p, h); }
    forall g, h | 0 <= g < h < |q.handlers| ensures !Rivals(q, g, h) { assert !Rivals(p, g, h); }
  }

  lemma {:induction false} LaunchTame(p: Provider, name: string, r: Request)
    requires Tame(p) && Admit(p, name, r).Admitted? && !Conflicts(p, p.names[name], r)
    ensures Tame(Launch(p, p.names[name], r))
  {
    var q := Launch(p, p.names[name], r);
    forall h | 0 <= h < |q.handlers|
      ensures HandlerTame(q, h)
    {
      if h < |p.handlers| { assert HandlerTame(p, h); }
    }
    forall g, h | 0 <= g < h < |q.handlers|
      ensures !Rivals(q, g, h)
    {
      if h < |p.handlers| {
        assert !Rivals(p, g, h);
      } else if p.handlers[g].obj == p.names[name] {
        assert !Against(p.handlers[g].pc, r);
      }
    }
  }

  /** Handler h moved on: it was tame and became no other kind, or lost its claim
      and changed its pipeline's state. */
  lemma {:induction false} SettledTame(p: Provider, q: Provider, h: nat)
    requires Tame(p) && Wf(q) && h < |p.handlers| == |q.handlers| && |q.objs| == |p.objs|
    requires q.handlers == p.handlers[h := q.handlers[h]] && q.handlers[h].obj == p.handlers[h].obj
    requires forall i :: 0 <= i < |p.objs| && i != p.handlers[h].obj ==> q.objs[i] == p.objs[i]
    requires q.handlers[h].pc.Starting? ==> p.handlers[h].pc.Starting?
    requires Closer(q.handlers[h].pc) ==> Closer(p.handlers[h].pc)
    requires q.objs[p.handlers[h].obj].active == p.objs[p.handlers[h].obj].active ||
             ((p.handlers[h].pc.Starting? || Closer(p.handlers[h].pc)) &&
              !q.handlers[h].pc.Starting? && !Closer(q.handlers[h].pc))
    ensures Tame(q)
  {
    forall g | 0 <= g < |q.handlers|
      ensures HandlerTame(q, g)
    {
      assert HandlerTame(p, g) && HandlerTame(p, h);
      if g < h { assert !Rivals(p, g, h); }
      if h < g { assert !Rivals(p, h, g); }
    }
    forall g, k | 0 <= g < k < |q.handlers|
      ensures !Rivals(q, g, k)
    {
      assert !Rivals(p, g, k);
    }
  }

  lemma {:induction false} ReturnTame(p: Provider, h: nat, ok: bool)
    requires Tame(p) && Enabled(p, BackendRet(h, ok))
    ensures Tame(Next(p, BackendRet(h, ok)))
    ensures !StartsTwice(p, BackendRet(h, ok)) && !ClosesTwice(p, BackendRet(h, ok))
  {
    assert HandlerTame(p, h);
    SettledTame(p, Next(p, BackendRet(h, ok)), h);
  }

  ghost predicate Harmless(p: Provider, es: seq<Event>)
    requires Wf(p) && Feasible(p, es)
    decreases |es|
  {
    es == [] || (HarmlessStep(p, es[0]) && Harmless(Next(p, es[0]), es[1..]))
  }

  ghost predicate NothingTwice(p: Provider, es: seq<Event>)
    requires Wf(p) && Feasible(p, es)
  {
    StartedTwice(p, es) == 0 && ClosedTwice(p, es) == 0
  }

  lemma {:induction false} HarmlessRun(p: Provider, es: seq<Event>)
    requires Tame(p) && Feasible(p, es) && Harmless(p, es)
    ensures NothingTwice(p, es)
    decreases |es|
  {
    if es != [] {
      HarmlessKeepsTame(p, es[0]);
      HarmlessRun(Next(p, es[0]), es[1..]);
    }
  }

  /** Whatever else may be in flight: a harmless run that completes nothing twice. */
  ghost predicate SafeAfter(p: Provider) requires Wf(p) {
    forall es :: Feasible(p, es) && Harmless(p, es) ==> NothingTwice(p, es)
  }

  /** A run of one event, and of one event more. */
  lemma {:induction false} OneMore(p: Provider, e: Event, es: seq<Event>)
    requires Wf(p) && Enabled(p, e) && !e.Req? && Feasible(Next(p, e), es) && Harmless(Next(p, e), es)
    requires StartsTwice(p, e) || ClosesTwice(p, e) || !NothingTwice(Next(p, e), es)
    ensures Feasible(p, [e] + es) && Harmless(p, [e] + es) && !NothingTwice(p, [e] + es)
  {
    assert ([e] + es)[1..] == es;
  }

  /** Two rivals: let the first go through to its end, then the second; the
      second completes twice. */
  lemma {:induction false} RivalsClash(p: Provider, g: nat, h: nat) returns (es: seq<Event>)
    requires Wf(p) && g < |p.handlers| && h < |p.handlers| && g != h && Rivals(p, g, h)
    ensures Feasible(p, es) && Harmless(p, es) && !NothingTwice(p, es)
    decreases (if p.handlers[g].pc.Executing? then 1 else 0) + (if p.handlers[h].pc.Executing? then 1 else 0)
  {
    var e, f := BackendRet(g, true), BackendRet(h, true);
    var q := Next(p, e);
    if p.handlers[g].pc.Executing? {
      es := RivalsClash(q, g, h);
      OneMore(p, e, es);
      es := [e] + es;
    } else if p.handlers[h].pc.Executing? {
      es := RivalsClash(Next(p, f), g, h);
      OneMore(p, f, es);
      es := [f] + es;
    } else {
      assert q.handlers[h] == p.handlers[h];
      OneMore(q, f, []);
      OneMore(p, e, [f] + []);
      es := [e] + ([f] + []);
    }
  }

  /** The exact discipline at the guard: an admitted request leaves the counter
      safe, whatever harmless requests and backend answers follow, exactly when
      it does not compete with a request in flight. */
  lemma {:induction false} GuardDecides(p: Provider, name: string, r: Request)
    requires Tame(p) && Admit(p, name, r).Admitted?
    ensures SafeAfter(Launch(p, p.names[name], r)) <==> !Conflicts(p, p.names[name], r)
  {
    var i := p.names[name];
    var q := Launch(p, i, r);
    if Conflicts(p, i, r) {
      var g :| 0 <= g < |p.handlers| && p.handlers[g].obj == i && Against(p.handlers[g].pc, r);
      assert q.handlers[g] == p.handlers[g] && q.handlers[|p.handlers|] == Handler(i, FirstPc(r));
      var es := RivalsClash(q, g, |p.handlers|);
      assert Feasible(q, es) && Harmless(q, es) && !NothingTwice(q, es);
    } else {
      LaunchTame(p, name, r);
      forall es | Feasible(q, es) && Harmless(q, es)
        ensures NothingTwice(q, es)
      {
        HarmlessRun(q, es);
      }
    }
  }

  /** A provider on which one pipeline was created and started at 7. */
  function OneStarted(): (p: Provider)
    ensures p.names == map["x" := 0] && p.handlers == [Handler(0, Done)] && p.count == 1
    ensures p.objs == [Obj(true, 7, [StartCall(7), StartRet(7, true)], Free)]
  {
    var created := Next(NewProvider(0), Create("x"));
    assert created.objs == [FRESH_OBJ];
    var starting := Next(created, Req("x", Start(0, 7)));
    assert starting.objs[0].log == [StartCall(7)];
    assert starting.handlers == [Handler(0, Starting(7))];
    assert starting.objs == [Obj(false, 0, [StartCall(7)], StartingBy(0))];
    var p := Next(starting, BackendRet(0, true));
    assert p.objs[0].log == [StartCall(7), StartRet(7, true)];
    p
  }

  /** Two cleanups at once are both admitted, and the counter underflows: the
      client's discipline is needed. */
  lemma {:induction false} ConcurrentCleanupsUnderflow()
    ensures var once := Next(OneStarted(), Req("x", Cleanup(7)));
            && Admit(OneStarted(), "x", Cleanup(7)).Admitted?
            && Admit(once, "x", Cleanup(7)).Admitted?
            && !Serial(once, Req("x", Cleanup(7)))
            && var twice := Next(once, Req("x", Cleanup(7)));
               |twice.handlers| == 3 && Resume(Resume(twice, 1, true), 2, true).count == TWO64 - 1
  {
    var once := Next(OneStarted(), Req("x", Cleanup(7)));
    var twice := Next(once, Req("x", Cleanup(7)));
    assert twice.handlers == [Handler(0, Done), Handler(0, Cleaning(7, false)), Handler(0, Cleaning(7, false))];
    var first := Resume(twice, 1, true);
    assert first.count == 0 && first.handlers[2] == Handler(0, Cleaning(7, false));
    assert Resume(first, 2, true).count == TWO64 - 1;
  }

}

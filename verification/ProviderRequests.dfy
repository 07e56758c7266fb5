/** What requests do over whole runs, whatever the clients' discipline: why one is
    refused, what a new pipeline accepts, which backend calls the admitted ones
    make, and that no leave request is lost. */
module ProviderRequests {
  import opened Words
  import opened ProviderSpec
  import opened ProviderRaces
  import opened ProviderCalls

  // ----- Refusals -----

  /** Each error code tells the first reason, in the order of the guards, for which
      the request cannot be served; without such a reason it is admitted. */
  lemma {:induction false} RefusalTellsWhy(p: Provider, name: string, r: Request)
    requires Wf(p)
    ensures Admit(p, name, r) == Refused(INVALID_GROUP_HASH) <==> r.Start? && r.hash != p.hash
    ensures Admit(p, name, r) == Refused(INVALID_PIPELINE_NAME) <==> !(r.Start? && r.hash != p.hash) && name !in p.names
    ensures name in p.names && !(r.Start? && r.hash != p.hash) ==>
              var o := p.objs[p.names[name]];
              && (Admit(p, name, r) == Refused(PIPELINE_IS_ACTIVE) <==> r.Start? && o.active)
              && (Admit(p, name, r) == Refused(PIPELINE_NOT_ACTIVE) <==> !r.Start? && !o.active)
              && (Admit(p, name, r) == Refused(INVALID_ITERATION) <==>
                    if r.Start? then !o.active && 0 < o.iteration && r.k <= o.iteration
                    else o.active && r.k != o.iteration)
              && (Admit(p, name, r) == Admitted(p.names[name]) <==>
                    if r.Start? then !o.active && (o.iteration == 0 || o.iteration < r.k)
                    else o.active && o.iteration == r.k)
  {
  }

  // ----- A new pipeline -----

  /** The event concerns no pipeline of that name. */
  predicate Elsewhere(e: Event, name: string) {
    match e
    case Req(n, _) => n != name
    case Create(n) => n != name
    case Destroy(n) => n != name
    case _ => true
  }

  /** Pipeline i was created under that name, and nothing was asked of it. */
  ghost predicate Unused(p: Provider, name: string, i: nat) {
    && Wf(p) && i < |p.objs| && !p.objs[i].active && p.objs[i].iteration == 0
    && (if p.left then p.names == map[] else name in p.names && p.names[name] == i)
    && (forall n :: n in p.names && n != name ==> p.names[n] != i)
    && (forall h :: 0 <= h < |p.handlers| ==> p.handlers[h].obj != i)
  }

  lemma {:induction false} ElsewhereKeepsUnused(p: Provider, e: Event, name: string, i: nat)
    requires Unused(p, name, i) && Enabled(p, e) && Elsewhere(e, name)
    ensures Unused(Next(p, e), name, i)
  {
    match e
    case Req(n, r) => RequestKeepsUnused(p, n, r, name, i);
    case BackendRet(h, ok) => ResumeKeepsUnused(p, h, ok, name, i);
    case _ =>
  }

  lemma {:induction false} RequestKeepsUnused(p: Provider, n: string, r: Request, name: string, i: nat)
    requires Unused(p, name, i) && n != name
    ensures Unused(Next(p, Req(n, r)), name, i)
  {
  }

  lemma {:induction false} ResumeKeepsUnused(p: Provider, h: nat, ok: bool, name: string, i: nat)
    requires Unused(p, name, i) && Enabled(p, BackendRet(h, ok))
    ensures Unused(Resume(p, h, ok), name, i)
  {
    ResumeSettles(p, h, ok);
    ResumeKeepsNames(p, h, ok);
  }

  lemma {:induction false} ResumeKeepsNames(p: Provider, h: nat, ok: bool)
    requires Wf(p) && Enabled(p, BackendRet(h, ok))
    ensures Resume(p, h, ok).names == p.names && Resume(p, h, ok).left == p.left
  {
  }

  lemma {:induction false} StaysUnused(p: Provider, es: seq<Event>, name: string, i: nat)
    requires Unused(p, name, i) && Feasible(p, es) && forall n :: 0 <= n < |es| ==> Elsewhere(es[n], name)
    ensures Unused(Play(p, es), name, i)
    decreases |es|
  {
    if es != [] {
      ElsewhereKeepsUnused(p, es[0], name, i);
      StaysUnused(Next(p, es[0]), es[1..], name, i);
    }
  }

  /** A pipeline just created, whatever happened under other names since: unless the
      provider left, it accepts a start with the provider's hash at any iteration,
      and it refuses everything else as not active. */
  lemma {:induction false} FirstStartIsAdmitted(p: Provider, name: string, es: seq<Event>, k: u64, r: Request)
    requires Wf(p) && !p.left && Feasible(Next(p, Create(name)), es)
    requires forall n :: 0 <= n < |es| ==> Elsewhere(es[n], name)
    ensures var q := Play(Next(p, Create(name)), es);
            if q.left then Admit(q, name, Start(q.hash, k)) == Refused(INVALID_PIPELINE_NAME)
            else
              && Admit(q, name, Start(q.hash, k)) == Admitted(|p.objs|)
              && (!r.Start? ==> Admit(q, name, r) == Refused(PIPELINE_NOT_ACTIVE))
  {
    assert Unused(Next(p, Create(name)), name, |p.objs|);
    StaysUnused(Next(p, Create(name)), es, name, |p.objs|);
  }

  // ----- Every backend call answers a request -----

  datatype Kind = ToStart | ToStage | ToExecute | ToCleanup | ToAbort

  predicate IsFor(r: Request, kind: Kind, k: u64) {
    && r.k == k
    && match kind
       case ToStart => r.Start?
       case ToStage => r.Stage?
       case ToExecute => r.Execute?
       case ToCleanup => r.Cleanup?
       case ToAbort => r.Abort?
  }

  /** The event is a request of that kind, admitted for pipeline i. */
  ghost predicate Admits(p: Provider, e: Event, i: nat, kind: Kind, k: u64)
    requires Wf(p)
  {
    && e.Req? && IsFor(e.r, kind, k)
    && Admit(p, e.name, e.r).Admitted? && e.name in p.names && p.names[e.name] == i
  }

  /** How many such requests were admitted in a run. */
  ghost function Requested(p: Provider, es: seq<Event>, i: nat, kind: Kind, k: u64): nat
    requires Wf(p) && Feasible(p, es)
    decreases |es|
  {
    if es == [] then 0
    else (if Admits(p, es[0], i, kind, k) then 1 else 0) + Requested(Next(p, es[0]), es[1..], i, kind, k)
  }

  /** An execute request with automatic cleanup was executed well on pipeline i. */
  ghost predicate GoesOnToCleanup(p: Provider, e: Event, i: nat, k: u64)
    requires Wf(p) && Enabled(p, e)
  {
    e.BackendRet? && e.ok && p.handlers[e.h] == Handler(i, Executing(k, true))
  }

  ghost function AutoCleanups(p: Provider, es: seq<Event>, i: nat, k: u64): nat
    requires Wf(p) && Feasible(p, es)
    decreases |es|
  {
    if es == [] then 0
    else (if GoesOnToCleanup(p, es[0], i, k) then 1 else 0) + AutoCleanups(Next(p, es[0]), es[1..], i, k)
  }

  /** What the backend of pipeline i observed; nothing before it was created. */
  function LogOf(p: Provider, i: nat): seq<Call> {
    if i < |p.objs| then p.objs[i].log else []
  }

  /** How often the backend of pipeline i was called like that. */
  function Calls(p: Provider, i: nat, c: Call): nat {
    multiset(LogOf(p, i))[c]
  }

  /** What a step lets the backend of pipeline i observe. */
  function Observed(p: Provider, e: Event, i: nat): Option<Call>
    requires Wf(p) && Enabled(p, e)
  {
    match e
    case Req(name, r) => if Admit(p, name, r) == Admitted(i) then Some(FirstCall(r)) else None
    case BackendRet(h, ok) => if p.handlers[h].obj == i then ResumeCall(p.handlers[h].pc, ok) else None
    case _ => None
  }

  lemma {:induction false} StepLog(p: Provider, e: Event, i: nat)
    requires Wf(p) && Enabled(p, e)
    ensures LogOf(Next(p, e), i) == LogOf(p, i) + if Observed(p, e, i).Some? then [Observed(p, e, i).value] else []
  {
    match e
    case BackendRet(h, ok) =>
      ResumeLog(p, h, ok);
      OtherLogs(p, h, ok, i);
    case _ =>
  }

  lemma {:induction false} OtherLogs(p: Provider, h: nat, ok: bool, i: nat)
    requires Wf(p) && Enabled(p, BackendRet(h, ok))
    ensures i != p.handlers[h].obj ==> LogOf(Resume(p, h, ok), i) == LogOf(p, i)
  {
    ResumeSettles(p, h, ok);
  }

  /** The calls that a step makes are those that are asked for. */
  ghost predicate MadeAsAsked(p: Provider, e: Event, i: nat, k: u64)
    requires Wf(p) && Enabled(p, e)
  {
    var made := Observed(p, e, i);
    && (made == Some(StartCall(k)) <==> Admits(p, e, i, ToStart, k))
    && (made == Some(StageCall(k)) <==> Admits(p, e, i, ToStage, k))
    && (made == Some(ExecuteCall(k)) <==> Admits(p, e, i, ToExecute, k))
    && (made == Some(AbortCall(k)) <==> Admits(p, e, i, ToAbort, k))
    && (made == Some(CleanupCall(k)) <==> Admits(p, e, i, ToCleanup, k) || GoesOnToCleanup(p, e, i, k))
  }

  lemma {:induction false} StepMakes(p: Provider, e: Event, i: nat, k: u64)
    requires Wf(p) && Enabled(p, e)
    ensures MadeAsAsked(p, e, i, k)
  {
  }

  lemma {:induction false} StepCalls(p: Provider, e: Event, i: nat, c: Call)
    requires Wf(p) && Enabled(p, e)
    ensures Calls(Next(p, e), i, c) == Calls(p, i, c) + if Observed(p, e, i) == Some(c) then 1 else 0
  {
    StepLog(p, e, i);
  }

  /** Over any run of any clients, the backend of a pipeline is called once for every
      request admitted for it, with that request's iteration, and cleaned up once
      more for every execute that ended well and asked for it. */
  lemma {:induction false} CallsAreRequests(p: Provider, es: seq<Event>, i: nat, k: u64)
    requires Wf(p) && Feasible(p, es)
    ensures var q := Play(p, es);
            && Calls(q, i, StartCall(k)) == Calls(p, i, StartCall(k)) + Requested(p, es, i, ToStart, k)
            && Calls(q, i, StageCall(k)) == Calls(p, i, StageCall(k)) + Requested(p, es, i, ToStage, k)
            && Calls(q, i, ExecuteCall(k)) == Calls(p, i, ExecuteCall(k)) + Requested(p, es, i, ToExecute, k)
            && Calls(q, i, AbortCall(k)) == Calls(p, i, AbortCall(k)) + Requested(p, es, i, ToAbort, k)
            && Calls(q, i, CleanupCall(k)) == Calls(p, i, CleanupCall(k)) + Requested(p, es, i, ToCleanup, k)
                                              + AutoCleanups(p, es, i, k)
    decreases |es|
  {
    if es != [] {
      StepMakes(p, es[0], i, k);
      forall c { StepCalls(p, es[0], i, c); }
      CallsAreRequests(Next(p, es[0]), es[1..], i, k);
    }
  }

  // ----- Every handler serves a request -----

  datatype Task = Task(i: nat, r: Request)

  /** The lifecycle requests admitted in a run, in order, with their pipelines. */
  ghost function Tasks(p: Provider, es: seq<Event>): seq<Task>
    requires Wf(p) && Feasible(p, es)
    decreases |es|
  {
    if es == [] then [] else TaskOf(p, es[0]) + Tasks(Next(p, es[0]), es[1..])
  }

  ghost function TaskOf(p: Provider, e: Event): seq<Task>
    requires Wf(p)
  {
    if e.Req? && !e.r.Stage? && e.name in p.names && Admit(p, e.name, e.r).Admitted?
    then [Task(p.names[e.name], e.r)] else []
  }

  /** Where a handler can be that serves this request. */
  predicate Serves(x: Handler, t: Task) {
    && x.obj == t.i
    && match t.r
       case Start(_, k) => x.pc == Starting(k) || x.pc.Notifying? || x.pc.Done?
       case Execute(k, auto) =>
         x.pc == Executing(k, auto) || x.pc.Done? || (auto && (x.pc == Cleaning(k, true) || x.pc.Notifying?))
       case Cleanup(k) => x.pc == Cleaning(k, false) || x.pc.Notifying? || x.pc.Done?
       case Abort(k) => x.pc == Aborting(k) || x.pc.Notifying? || x.pc.Done?
       case Stage(_) => false
  }

  ghost predicate AllServe(p: Provider, tasks: seq<Task>) {
    |p.handlers| == |tasks| && forall h :: 0 <= h < |tasks| ==> Serves(p.handlers[h], tasks[h])
  }

  lemma {:induction false} StepServes(p: Provider, e: Event, tasks: seq<Task>)
    requires Wf(p) && Enabled(p, e) && AllServe(p, tasks)
    ensures AllServe(Next(p, e), tasks + TaskOf(p, e))
  {
    match e
    case Req(name, r) => if Admit(p, name, r).Admitted? { LaunchServes(p, name, r, tasks); }
    case BackendRet(h, ok) => ReturnServes(p, h, ok, tasks);
    case NotifyAll(h) => assert Serves(p.handlers[h], tasks[h]);
    case _ =>
  }

  lemma {:induction false} LaunchServes(p: Provider, name: string, r: Request, tasks: seq<Task>)
    requires Wf(p) && AllServe(p, tasks) && Admit(p, name, r).Admitted?
    ensures AllServe(Next(p, Req(name, r)), tasks + TaskOf(p, Req(name, r)))
  {
  }

  lemma {:induction false} ReturnServes(p: Provider, h: nat, ok: bool, tasks: seq<Task>)
    requires Wf(p) && Enabled(p, BackendRet(h, ok)) && AllServe(p, tasks)
    ensures AllServe(Resume(p, h, ok), tasks)
  {
    assert Serves(p.handlers[h], tasks[h]);
    ResumeSettles(p, h, ok);
    assert Serves(Resume(p, h, ok).handlers[h], tasks[h]);
  }

  /** The h-th handler of a provider serves the h-th lifecycle request that was
      admitted, on the pipeline and in the way which that asked for. */
  lemma {:induction false} HandlersAreRequests(p: Provider, es: seq<Event>, tasks: seq<Task>)
    requires Wf(p) && Feasible(p, es) && AllServe(p, tasks)
    ensures AllServe(Play(p, es), tasks + Tasks(p, es))
    decreases |es|
  {
    if es == [] {
      assert tasks + [] == tasks;
    } else {
      StepServes(p, es[0], tasks);
      HandlersAreRequests(Next(p, es[0]), es[1..], tasks + TaskOf(p, es[0]));
      assert (tasks + TaskOf(p, es[0])) + Tasks(Next(p, es[0]), es[1..]) == tasks + Tasks(p, es);
    }
  }

  // ----- Every leave request -----

  function LeaveRequests(es: seq<Event>): nat {
    if es == [] then 0 else LeaveRequests(es[..|es| - 1]) + if es[|es| - 1].LeaveReq? then 1 else 0
  }

  /** A leave request, new or woken, finds no pipeline counted as active. */
  predicate GetsAway(p: Provider, e: Event) {
    (e.LeaveReq? || e.LeaveWake?) && p.count == 0
  }

  ghost function GotAway(p: Provider, es: seq<Event>): nat
    requires Wf(p) && Feasible(p, es)
    decreases |es|
  {
    if es == [] then 0 else (if GetsAway(p, es[0]) then 1 else 0) + GotAway(Next(p, es[0]), es[1..])
  }

  lemma {:induction false} LeaveRequestsCons(e: Event, es: seq<Event>)
    ensures LeaveRequests([e] + es) == (if e.LeaveReq? then 1 else 0) + LeaveRequests(es)
  {
    if es == [] {
      assert [e] + es == [e] && [e][..0] == [];
    } else {
      var front, last := es[..|es| - 1], es[|es| - 1];
      LeaveRequestsCons(e, front);
      assert ([e] + es)[..|es|] == [e] + front && ([e] + es)[|es|] == last;
    }
  }

  lemma {:induction false} LeaveStep(p: Provider, e: Event)
    requires Wf(p) && Enabled(p, e)
    ensures var q, away := Next(p, e), if GetsAway(p, e) then 1 else 0;
            && q.asleep + q.awake + away == p.asleep + p.awake + (if e.LeaveReq? then 1 else 0)
            && (q.left <==> p.left || away > 0)
  {
  }

  /** No leave request is lost: at the end of any run each is asleep, or woken, or
      has found the counter at zero; and the provider left exactly if one has. */
  lemma {:induction false} NoLeaveIsLost(p: Provider, es: seq<Event>)
    requires Wf(p) && Feasible(p, es)
    ensures var q := Play(p, es);
            && q.asleep + q.awake + GotAway(p, es) == p.asleep + p.awake + LeaveRequests(es)
            && (q.left <==> p.left || GotAway(p, es) > 0)
    decreases |es|
  {
    if es != [] {
      LeaveStep(p, es[0]);
      NoLeaveIsLost(Next(p, es[0]), es[1..]);
      assert es == [es[0]] + es[1..];
      LeaveRequestsCons(es[0], es[1..]);
    }
  }
}

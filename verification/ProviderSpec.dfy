/** The state machine of one provider, at the granularity of its locks and of
    the calls into a backend.  Every request handler is split where it may be
    suspended: at the backend call, and between the end of a critical section
    and the notify_all that follows it. */
module ProviderSpec {
  import opened Words

  // Error codes as they travel in a reply.
  const PIPELINE_IS_ACTIVE := -1
  const PIPELINE_NOT_ACTIVE := -2
  const INVALID_ITERATION := -3
  const INVALID_PIPELINE_NAME := -4
  const INVALID_GROUP_HASH := -14

  /** What a backend observes, in order. */
  datatype Call =
    | StartCall(k: u64) | StartRet(k: u64, ok: bool)
    | StageCall(k: u64) | ExecuteCall(k: u64)
    | CleanupCall(k: u64) | CleanupRet(k: u64, ok: bool)
    | AbortCall(k: u64) | AbortRet(k: u64)

  /** Which lifecycle handler (start, execute, cleanup, abort) is in flight on
      a pipeline; auxiliary, no handler reads it. */
  datatype Owner = Free | StartingBy(h: nat) | HeldBy(h: nat)

  /** A PipelineState.  Objects are never forgotten, since a suspended handler
      may still hold one that was replaced or erased. */
  datatype Obj = Obj(active: bool, iteration: u64, log: seq<Call>, owner: Owner)

  const FRESH_OBJ := Obj(false, 0, [], Free)

  datatype Pc =
    | Starting(k: u64)
    | Executing(k: u64, autoCleanup: bool)
    | Cleaning(k: u64, auto: bool)
    | Aborting(k: u64)
    | Notifying
    | Done

  datatype Handler = Handler(obj: nat, pc: Pc)

  datatype Provider = Provider(
    hash: u64,
    names: map<string, nat>,
    objs: seq<Obj>,
    count: u64,
    handlers: seq<Handler>,
    asleep: nat,
    awake: nat,
    left: bool)

  datatype Request =
    | Start(hash: u64, k: u64)
    | Stage(k: u64)
    | Execute(k: u64, autoCleanup: bool)
    | Cleanup(k: u64)
    | Abort(k: u64)

  datatype Event =
    | Req(name: string, r: Request)
    | BackendRet(h: nat, ok: bool)
    | NotifyAll(h: nat)
    | Create(name: string)
    | Destroy(name: string)
    | LeaveReq
    | LeaveWake
    | MemberUpdate(id: u64)

  datatype Admission = Refused(code: int) | Admitted(obj: nat)

  ghost predicate Wf(p: Provider) {
    && (forall n :: n in p.names ==> p.names[n] < |p.objs|)
    && (forall h :: 0 <= h < |p.handlers| ==> p.handlers[h].obj < |p.objs|)
  }

  /** The guards of a handler, in the order in which they are evaluated. */
  function Admit(p: Provider, name: string, r: Request): Admission
    requires Wf(p)
  {
    if r.Start? && r.hash != p.hash then Refused(INVALID_GROUP_HASH)
    else if name !in p.names then Refused(INVALID_PIPELINE_NAME)
    else
      var o := p.objs[p.names[name]];
      if r.Start? then
        if o.active then Refused(PIPELINE_IS_ACTIVE)
        else if o.iteration != 0 && o.iteration >= r.k then Refused(INVALID_ITERATION)
        else Admitted(p.names[name])
      else if !o.active then Refused(PIPELINE_NOT_ACTIVE)
      else if o.iteration != r.k then Refused(INVALID_ITERATION)
      else Admitted(p.names[name])
  }

  function FirstCall(r: Request): Call {
    match r
    case Start(_, k) => StartCall(k)
    case Stage(k) => StageCall(k)
    case Execute(k, _) => ExecuteCall(k)
    case Cleanup(k) => CleanupCall(k)
    case Abort(k) => AbortCall(k)
  }

  function FirstPc(r: Request): Pc
    requires !r.Stage?
  {
    match r
    case Start(_, k) => Starting(k)
    case Execute(k, auto) => Executing(k, auto)
    case Cleanup(k) => Cleaning(k, false)
    case Abort(k) => Aborting(k)
  }

  /** An admitted request, up to and including its call into the backend. */
  function Launch(p: Provider, i: nat, r: Request): (q: Provider)
    requires Wf(p) && i < |p.objs|
    ensures Wf(q) && |q.objs| == |p.objs|
  {
    var o := p.objs[i].(log := p.objs[i].log + [FirstCall(r)]);
    var h := |p.handlers|;
    if r.Stage? then p.(objs := p.objs[i := o])
    else
      p.(objs := p.objs[i := o.(owner := if r.Start? then StartingBy(h) else HeldBy(h))],
         handlers := p.handlers + [Handler(i, FirstPc(r))],
         count := if r.Start? then Inc(p.count) else p.count)
  }

  /** Handler h stores object o' and moves to pc. */
  function Settle(p: Provider, h: nat, o': Obj, pc: Pc): (q: Provider)
    requires Wf(p) && h < |p.handlers|
    ensures Wf(q) && |q.objs| == |p.objs|
  {
    var i := p.handlers[h].obj;
    p.(objs := p.objs[i := o'.(owner := if pc.Done? then Free else HeldBy(h))],
       handlers := p.handlers[h := Handler(i, pc)])
  }

  /** A handler goes on when its backend call returns, up to its next suspension. */
  function Resume(p: Provider, h: nat, ok: bool): (q: Provider)
    requires Wf(p) && h < |p.handlers|
    ensures Wf(q) && |q.objs| == |p.objs|
  {
    var o := p.objs[p.handlers[h].obj];
    match p.handlers[h].pc
    case Starting(k) =>
      var o' := o.(log := o.log + [StartRet(k, ok)]);
      if ok then Settle(p, h, o'.(active := true, iteration := k), Done)
      else Settle(p, h, o', Notifying).(count := Dec(p.count))
    case Executing(k, auto) =>
      if ok && auto then Settle(p, h, o.(log := o.log + [CleanupCall(k)]), Cleaning(k, true))
      else Settle(p, h, o, Done)
    case Cleaning(k, auto) =>
      var o' := o.(log := o.log + [CleanupRet(k, ok)]);
      if ok then Settle(p, h, o'.(active := false), Notifying).(count := Dec(p.count))
      else Settle(p, h, o', if auto then Notifying else Done)
    case Aborting(k) =>
      var o' := o.(log := o.log + [AbortRet(k)]);
      Settle(p, h, o'.(active := false, iteration := Dec(o.iteration)), Notifying).(count := Dec(p.count))
    case _ => p
  }

  /** The locked part of leave: proceed, or go to sleep on the condition variable. */
  function TryLeave(p: Provider): (q: Provider)
    requires Wf(p)
    ensures Wf(q) && q.objs == p.objs
  {
    if p.count != 0 then p.(asleep := p.asleep + 1)
    else p.(left := true, names := map[])
  }

  predicate Enabled(p: Provider, e: Event)
    requires Wf(p)
  {
    match e
    case BackendRet(h, _) => h < |p.handlers| && !p.handlers[h].pc.Notifying? && !p.handlers[h].pc.Done?
    case NotifyAll(h) => h < |p.handlers| && p.handlers[h].pc.Notifying?
    case Create(_) => !p.left
    case LeaveWake => p.awake > 0
    case _ => true
  }

  function Next(p: Provider, e: Event): (q: Provider)
    requires Wf(p) && Enabled(p, e)
    ensures Wf(q) && |p.objs| <= |q.objs|
  {
    match e
    case Req(name, r) =>
      (match Admit(p, name, r)
       case Refused(_) => p
       case Admitted(i) => Launch(p, i, r))
    case BackendRet(h, ok) => Resume(p, h, ok)
    case NotifyAll(h) =>
      Settle(p, h, p.objs[p.handlers[h].obj], Done).(awake := p.awake + p.asleep, asleep := 0)
    case Create(name) =>
      p.(objs := p.objs + [FRESH_OBJ], names := p.names[name := |p.objs|])
    case Destroy(name) =>
      if name !in p.names || p.objs[p.names[name]].active then p
      else p.(names := p.names - {name})
    case LeaveReq => TryLeave(p)
    case LeaveWake => TryLeave(p.(awake := p.awake - 1))
    case MemberUpdate(id) => p.(hash := Xor(p.hash, id))
  }

  /** The client's side of the protocol: one lifecycle request in flight per
      pipeline; blocks may be staged at any time. */
  predicate Serial(p: Provider, e: Event)
    requires Wf(p)
  {
    match e
    case Req(name, r) => name in p.names ==> r.Stage? || p.objs[p.names[name]].owner.Free?
    case _ => true
  }

  // ----- Counting -----

  function Cost(o: Obj): nat {
    (if o.active then 1 else 0) + (if o.owner.StartingBy? then 1 else 0)
  }

  /** The pipelines ever created that are active, plus the starts between their
      increment of the counter and their outcome. */
  function Busy(objs: seq<Obj>): nat {
    if objs == [] then 0 else Busy(objs[..|objs| - 1]) + Cost(objs[|objs| - 1])
  }

  lemma {:induction false} BusyUpdate(objs: seq<Obj>, i: nat, o: Obj)
    requires i < |objs|
    ensures Busy(objs[i := o]) == Busy(objs) - Cost(objs[i]) + Cost(o)
  {
    var last := |objs| - 1;
    if i == last {
      assert objs[i := o][..last] == objs[..last];
    } else {
      BusyUpdate(objs[..last], i, o);
      assert objs[i := o][..last] == objs[..last][i := o];
    }
  }

  lemma {:induction false} BusySnoc(objs: seq<Obj>, o: Obj)
    ensures Busy(objs + [o]) == Busy(objs) + Cost(o)
  {
    assert (objs + [o])[..|objs|] == objs;
  }

  lemma {:induction false} BusyBound(objs: seq<Obj>)
    requires forall i :: 0 <= i < |objs| ==> Cost(objs[i]) <= 1
    ensures Busy(objs) <= |objs|
  {
    if objs != [] {
      BusyBound(objs[..|objs| - 1]);
    }
  }

  lemma {:induction false} BusyZero(objs: seq<Obj>, i: nat)
    requires i < |objs|
    ensures Cost(objs[i]) <= Busy(objs)
  {
    if i < |objs| - 1 {
      BusyZero(objs[..|objs| - 1], i);
    }
  }

  // ----- The invariant -----

  ghost predicate ObjOk(p: Provider, i: nat)
    requires i < |p.objs|
  {
    var o := p.objs[i];
    && (o.owner.StartingBy? ==> !o.active)
    && (!o.owner.Free? ==>
          && o.owner.h < |p.handlers|
          && p.handlers[o.owner.h].obj == i
          && !p.handlers[o.owner.h].pc.Done?
          && (o.owner.StartingBy? <==> p.handlers[o.owner.h].pc.Starting?))
  }

  ghost predicate HandlerOk(p: Provider, h: nat)
    requires h < |p.handlers| && p.handlers[h].obj < |p.objs|
  {
    var o := p.objs[p.handlers[h].obj];
    && (!p.handlers[h].pc.Done? ==> !o.owner.Free? && o.owner.h == h)
    && (match p.handlers[h].pc
        case Starting(k) => o.iteration == 0 || o.iteration < k
        case Executing(k, _) => o.active && o.iteration == k
        case Cleaning(k, _) => o.active && o.iteration == k
        case Aborting(k) => o.active && o.iteration == k
        case _ => true)
  }

  ghost predicate Linked(p: Provider) {
    && Wf(p)
    && (forall i :: 0 <= i < |p.objs| ==> ObjOk(p, i))
    && (forall h :: 0 <= h < |p.handlers| ==> HandlerOk(p, h))
  }

  /** No wakeup is lost: a leave that sleeps although the counter is zero is
      about to be woken by a handler that still has to call notify_all. */
  ghost predicate NoLostWakeup(p: Provider) {
    p.asleep > 0 && p.count == 0 ==> exists h :: 0 <= h < |p.handlers| && p.handlers[h].pc.Notifying?
  }

  ghost predicate Inv(p: Provider) {
    && Linked(p)
    && p.count == Busy(p.objs)
    && NoLostWakeup(p)
    && (p.left ==> p.count == 0 && p.names == map[])
  }

  function NewProvider(hash: u64): Provider {
    Provider(hash, map[], [], 0, [], 0, 0, false)
  }

  lemma {:induction false} NewProviderInv(hash: u64)
    ensures Inv(NewProvider(hash))
  {
  }

  /** A step touches one object and one handler on it; the others stay linked. */
  lemma {:induction false} TouchOne(p: Provider, q: Provider, i: nat, h: nat)
    requires Linked(p) && i < |p.objs| && h < |q.handlers|
    requires |q.objs| == |p.objs| && |p.handlers| <= |q.handlers| <= |p.handlers| + 1
    requires |q.handlers| == |p.handlers| + 1 ==> h == |p.handlers| && p.objs[i].owner.Free?
    requires |q.handlers| == |p.handlers| ==> p.handlers[h].obj == i && !p.handlers[h].pc.Done?
    requires q.names == p.names || q.names == map[]
    requires forall j :: 0 <= j < |p.objs| && j != i ==> q.objs[j] == p.objs[j]
    requires forall g :: 0 <= g < |p.handlers| && g != h ==> q.handlers[g] == p.handlers[g]
    requires q.handlers[h].obj == i && ObjOk(q, i) && HandlerOk(q, h)
    ensures Linked(q)
  {
    forall j | 0 <= j < |q.objs|
      ensures ObjOk(q, j)
    {
      assert ObjOk(p, j);
    }
    forall g | 0 <= g < |q.handlers|
      ensures HandlerOk(q, g)
    {
      if g < |p.handlers| && g != h {
        assert HandlerOk(p, g);
        if |q.handlers| == |p.handlers| { assert HandlerOk(p, h); }
      }
    }
  }

  lemma {:induction false} LaunchKeepsInv(p: Provider, i: nat, r: Request)
    requires Inv(p) && i < |p.objs| < TWO64 && !p.left
    requires if r.Start? then !p.objs[i].active && (p.objs[i].iteration == 0 || p.objs[i].iteration < r.k)
             else p.objs[i].active && p.objs[i].iteration == r.k
    requires r.Stage? || p.objs[i].owner.Free?
    ensures Inv(Launch(p, i, r))
  {
    var q := Launch(p, i, r);
    BusyUpdate(p.objs, i, q.objs[i]);
    if r.Stage? {
      forall j | 0 <= j < |q.objs| ensures ObjOk(q, j) { assert ObjOk(p, j); }
      forall g | 0 <= g < |q.handlers| ensures HandlerOk(q, g) { assert HandlerOk(p, g); }
    } else {
      TouchOne(p, q, i, |p.handlers|);
      forall j | 0 <= j < |q.objs| ensures Cost(q.objs[j]) <= 1 { assert ObjOk(q, j); }
      BusyBound(q.objs);
      if p.asleep > 0 && q.count == 0 {
        var g :| 0 <= g < |p.handlers| && p.handlers[g].pc.Notifying?;
        assert q.handlers[g] == p.handlers[g];
      }
    }
  }

  lemma {:induction false} ResumeKeepsInv(p: Provider, h: nat, ok: bool)
    requires Inv(p) && Enabled(p, BackendRet(h, ok))
    ensures Inv(Resume(p, h, ok))
  {
    var q, i := Resume(p, h, ok), p.handlers[h].obj;
    assert HandlerOk(p, h) && ObjOk(p, i);
    BusyUpdate(p.objs, i, q.objs[i]);
    BusyZero(p.objs, i);
    TouchOne(p, q, i, h);
    assert q.count == 0 ==> q.handlers[h].pc.Notifying?;
  }

  lemma {:induction false} NotifyKeepsInv(p: Provider, h: nat)
    requires Inv(p) && Enabled(p, NotifyAll(h))
    ensures Inv(Next(p, NotifyAll(h)))
  {
    var q, i := Next(p, NotifyAll(h)), p.handlers[h].obj;
    assert HandlerOk(p, h) && ObjOk(p, i);
    BusyUpdate(p.objs, i, q.objs[i]);
    TouchOne(p, q, i, h);
  }

  lemma {:induction false} CreateKeepsInv(p: Provider, name: string)
    requires Inv(p) && Enabled(p, Create(name))
    ensures Inv(Next(p, Create(name)))
  {
    CreateKeepsLinked(p, name);
    BusySnoc(p.objs, FRESH_OBJ);
  }

  lemma {:induction false} CreateKeepsLinked(p: Provider, name: string)
    requires Linked(p) && Enabled(p, Create(name))
    ensures Linked(Next(p, Create(name)))
  {
    var q := Next(p, Create(name));
    forall j | 0 <= j < |q.objs|
      ensures ObjOk(q, j)
    {
      if j < |p.objs| { assert ObjOk(p, j); }
    }
    forall g | 0 <= g < |q.handlers|
      ensures HandlerOk(q, g)
    {
      assert HandlerOk(p, g);
    }
  }

  lemma {:induction false} SameObjsKeepLinked(p: Provider, q: Provider)
    requires Linked(p) && q.objs == p.objs && q.handlers == p.handlers
    requires q.names.Keys <= p.names.Keys && forall n :: n in q.names ==> q.names[n] == p.names[n]
    ensures Linked(q)
  {
    forall j | 0 <= j < |q.objs| ensures ObjOk(q, j) { assert ObjOk(p, j); }
    forall g | 0 <= g < |q.handlers| ensures HandlerOk(q, g) { assert HandlerOk(p, g); }
  }

  /** Every step of a disciplined client keeps the invariant. */
  lemma {:induction false} NextKeepsInv(p: Provider, e: Event)
    requires Inv(p) && Enabled(p, e) && Serial(p, e) && |p.objs| < TWO64
    ensures Inv(Next(p, e))
  {
    match e
    case Req(name, r) =>
      if Admit(p, name, r).Admitted? {
        LaunchKeepsInv(p, p.names[name], r);
      }
    case BackendRet(h, ok) => ResumeKeepsInv(p, h, ok);
    case NotifyAll(h) => NotifyKeepsInv(p, h);
    case Create(name) => CreateKeepsInv(p, name);
    case Destroy(name) => SameObjsKeepLinked(p, Next(p, e));
    case LeaveReq => SameObjsKeepLinked(p, Next(p, e));
    case LeaveWake => SameObjsKeepLinked(p, Next(p, e));
    case MemberUpdate(_) => SameObjsKeepLinked(p, Next(p, e));
  }
}

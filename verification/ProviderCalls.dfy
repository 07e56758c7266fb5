/** What one backend observes: the order of its lifecycle calls, and the
    iterations that a successful cleanup closed. */
module ProviderCalls {
  import opened Words
  import opened ProviderSpec
  import opened ProviderRuns

  // ----- The language of the calls -----

  /** Where a backend is in the documented life of an iteration. */
  datatype Mode =
    | Closed
    | InStart(k: u64)
    | Open(k: u64)
    | InCleanup(k: u64)
    | InAbort(k: u64)
    | Broken

  function Advance(m: Mode, c: Call): Mode {
    match m
    case Closed => if c.StartCall? then InStart(c.k) else Broken
    case InStart(k) =>
      if !c.StartRet? || c.k != k then Broken else if c.ok then Open(k) else Closed
    case Open(k) =>
      if c.k != k then Broken
      else if c.StageCall? || c.ExecuteCall? then Open(k)
      else if c.CleanupCall? then InCleanup(k)
      else if c.AbortCall? then InAbort(k)
      else Broken
    case InCleanup(k) =>
      if !c.CleanupRet? || c.k != k then Broken else if c.ok then Closed else Open(k)
    case InAbort(k) => if !c.AbortRet? || c.k != k then Broken else Closed
    case Broken => Broken
  }

  function ModeOf(log: seq<Call>): Mode {
    if log == [] then Closed else Advance(ModeOf(log[..|log| - 1]), log[|log| - 1])
  }

  lemma {:induction false} ModeOfSnoc(log: seq<Call>, c: Call)
    ensures ModeOf(log + [c]) == Advance(ModeOf(log), c)
  {
    assert (log + [c])[..|log|] == log;
  }

  /** The mode that the state of the handlers predicts. */
  ghost function Predicted(p: Provider, i: nat): Mode
    requires i < |p.objs|
  {
    var owner := p.objs[i].owner;
    ModeFor(p.objs[i], if owner.Free? || owner.h >= |p.handlers| then Done else p.handlers[owner.h].pc)
  }

  function ModeFor(o: Obj, pc: Pc): Mode {
    match pc
    case Starting(k) => InStart(k)
    case Cleaning(k, _) => InCleanup(k)
    case Aborting(k) => InAbort(k)
    case _ => if o.active then Open(o.iteration) else Closed
  }

  ghost predicate CallsOk(p: Provider) {
    forall i :: 0 <= i < |p.objs| ==> ModeOf(p.objs[i].log) == Predicted(p, i)
  }

  /** Pipelines that a step does not touch keep their calls and their mode. */
  lemma {:induction false} Elsewhere(p: Provider, q: Provider, i: nat, j: nat)
    requires Inv(p) && CallsOk(p) && j < |p.objs| <= |q.objs| && j != i
    requires q.objs[j] == p.objs[j]
    requires |p.handlers| <= |q.handlers|
    requires forall g :: 0 <= g < |p.handlers| && p.handlers[g].obj != i ==> q.handlers[g] == p.handlers[g]
    ensures ModeOf(q.objs[j].log) == Predicted(q, j)
  {
    assert ObjOk(p, j);
  }

  /** No block is staged while the iteration is being closed. */
  predicate Orderly(p: Provider, e: Event)
    requires Wf(p)
  {
    match e
    case Req(name, r) =>
      r.Stage? && name in p.names ==>
        var owner := p.objs[p.names[name]].owner;
        owner.HeldBy? && owner.h < |p.handlers| ==>
          !p.handlers[owner.h].pc.Cleaning? && !p.handlers[owner.h].pc.Aborting?
    case _ => true
  }

  ghost predicate OrderlyRun(p: Provider, es: seq<Event>)
    requires Wf(p) && Legal(p, es)
    decreases |es|
  {
    es == [] || (Orderly(p, es[0]) && OrderlyRun(Next(p, es[0]), es[1..]))
  }

  lemma {:induction false} LaunchMode(p: Provider, name: string, r: Request)
    requires Inv(p) && CallsOk(p) && Serial(p, Req(name, r)) && Orderly(p, Req(name, r)) && Admit(p, name, r).Admitted?
    ensures var i := p.names[name]; ModeOf(Launch(p, i, r).objs[i].log) == Predicted(Launch(p, i, r), i)
  {
    var i := p.names[name];
    assert ObjOk(p, i);
    if !p.objs[i].owner.Free? { assert HandlerOk(p, p.objs[i].owner.h); }
    ModeOfSnoc(p.objs[i].log, FirstCall(r));
    assert ModeOf(p.objs[i].log) == Predicted(p, i);
  }

  lemma {:induction false} LaunchKeepsCalls(p: Provider, name: string, r: Request)
    requires Inv(p) && CallsOk(p) && Serial(p, Req(name, r)) && Orderly(p, Req(name, r)) && Admit(p, name, r).Admitted?
    ensures CallsOk(Launch(p, p.names[name], r))
  {
    var i := p.names[name];
    var q := Launch(p, i, r);
    LaunchMode(p, name, r);
    forall j | 0 <= j < |q.objs| && j != i
      ensures ModeOf(q.objs[j].log) == Predicted(q, j)
    {
      Elsewhere(p, q, i, j);
    }
  }

  /** The call that a resumed handler makes or completes, if any. */
  function ResumeCall(pc: Pc, ok: bool): Option<Call> {
    match pc
    case Starting(k) => Some(StartRet(k, ok))
    case Executing(k, auto) => if ok && auto then Some(CleanupCall(k)) else None
    case Cleaning(k, _) => Some(CleanupRet(k, ok))
    case Aborting(k) => Some(AbortRet(k))
    case _ => None
  }

  lemma {:induction false} ResumeLog(p: Provider, h: nat, ok: bool)
    requires Wf(p) && Enabled(p, BackendRet(h, ok))
    ensures var i, c := p.handlers[h].obj, ResumeCall(p.handlers[h].pc, ok);
            Resume(p, h, ok).objs[i].log == if c.Some? then p.objs[i].log + [c.value] else p.objs[i].log
  {
  }

  /** That call takes the mode that the handler's old state predicts to the one
      that its new state predicts. */
  lemma {:induction false} ResumeAdvances(p: Provider, h: nat, ok: bool)
    requires Wf(p) && Enabled(p, BackendRet(h, ok)) && HandlerOk(p, h)
    requires p.handlers[h].pc.Starting? ==> !p.objs[p.handlers[h].obj].active
    ensures var q, i, c := Resume(p, h, ok), p.handlers[h].obj, ResumeCall(p.handlers[h].pc, ok);
            var m := ModeFor(p.objs[i], p.handlers[h].pc);
            ModeFor(q.objs[i], q.handlers[h].pc) == if c.Some? then Advance(m, c.value) else m
  {
  }

  lemma {:induction false} ResumeMode(p: Provider, h: nat, ok: bool)
    requires Wf(p) && Enabled(p, BackendRet(h, ok)) && HandlerOk(p, h)
    requires p.handlers[h].pc.Starting? ==> !p.objs[p.handlers[h].obj].active
    requires ModeOf(p.objs[p.handlers[h].obj].log) == ModeFor(p.objs[p.handlers[h].obj], p.handlers[h].pc)
    ensures var q, i := Resume(p, h, ok), p.handlers[h].obj;
            ModeOf(q.objs[i].log) == ModeFor(q.objs[i], q.handlers[h].pc)
  {
    var c := ResumeCall(p.handlers[h].pc, ok);
    ResumeLog(p, h, ok);
    ResumeAdvances(p, h, ok);
    if c.Some? {
      ModeOfSnoc(p.objs[p.handlers[h].obj].log, c.value);
    }
  }

  /** q is p after handler h stored its object and moved on. */
  ghost predicate Settled(p: Provider, q: Provider, h: nat)
    requires Wf(p) && h < |p.handlers|
  {
    var i := p.handlers[h].obj;
    && |q.objs| == |p.objs| && |q.handlers| == |p.handlers|
    && q.handlers[h].obj == i
    && q.objs == p.objs[i := q.objs[i]]
    && q.handlers == p.handlers[h := q.handlers[h]]
    && q.objs[i].owner == (if q.handlers[h].pc.Done? then Free else HeldBy(h))
  }

  lemma {:induction false} ResumeSettles(p: Provider, h: nat, ok: bool)
    requires Wf(p) && Enabled(p, BackendRet(h, ok))
    ensures Settled(p, Resume(p, h, ok), h)
  {
  }

  lemma {:induction false} SettledKeepsCalls(p: Provider, q: Provider, h: nat)
    requires Inv(p) && CallsOk(p) && h < |p.handlers| && Settled(p, q, h)
    requires ModeOf(q.objs[p.handlers[h].obj].log) == ModeFor(q.objs[p.handlers[h].obj], q.handlers[h].pc)
    ensures CallsOk(q)
  {
    var i := p.handlers[h].obj;
    forall j | 0 <= j < |q.objs|
      ensures ModeOf(q.objs[j].log) == Predicted(q, j)
    {
      if j != i { Elsewhere(p, q, i, j); }
    }
  }

  lemma {:induction false} ResumeKeepsCalls(p: Provider, h: nat, ok: bool)
    requires Inv(p) && CallsOk(p) && Enabled(p, BackendRet(h, ok))
    ensures CallsOk(Resume(p, h, ok))
  {
    var i := p.handlers[h].obj;
    assert HandlerOk(p, h) && ObjOk(p, i) && ModeOf(p.objs[i].log) == Predicted(p, i);
    ResumeMode(p, h, ok);
    ResumeSettles(p, h, ok);
    SettledKeepsCalls(p, Resume(p, h, ok), h);
  }

  lemma {:induction false} NextKeepsCalls(p: Provider, e: Event)
    requires Inv(p) && CallsOk(p) && Enabled(p, e) && Serial(p, e) && Orderly(p, e)
    ensures CallsOk(Next(p, e))
  {
    match e
    case Req(name, r) =>
      if Admit(p, name, r).Admitted? { LaunchKeepsCalls(p, name, r); }
    case BackendRet(h, ok) => ResumeKeepsCalls(p, h, ok);
    case NotifyAll(h) =>
      var i := p.handlers[h].obj;
      assert HandlerOk(p, h) && ObjOk(p, i) && ModeOf(p.objs[i].log) == Predicted(p, i);
      SettledKeepsCalls(p, Next(p, e), h);
    case _ => UntouchedKeepCalls(p, Next(p, e));
  }

  lemma {:induction false} UntouchedKeepCalls(p: Provider, q: Provider)
    requires Inv(p) && CallsOk(p) && q.handlers == p.handlers
    requires q.objs == p.objs || q.objs == p.objs + [FRESH_OBJ]
    ensures CallsOk(q)
  {
    forall j | 0 <= j < |p.objs|
      ensures ModeOf(q.objs[j].log) == Predicted(q, j)
    {
      Elsewhere(p, q, |p.objs|, j);
    }
  }

  lemma {:induction false} RunKeepsCalls(p: Provider, es: seq<Event>)
    requires Inv(p) && CallsOk(p) && Legal(p, es) && OrderlyRun(p, es) && |Run(p, es).objs| < TWO64
    ensures CallsOk(Run(p, es))
    decreases |es|
  {
    if es != [] {
      NextKeepsInv(p, es[0]);
      NextKeepsCalls(p, es[0]);
      RunKeepsCalls(Next(p, es[0]), es[1..]);
    }
  }

  /** The calls a backend sees are a prefix of complete blocks: a failed start;
      or start(k), then stages, executions and failed cleanups of k, then one
      successful cleanup(k) or abort(k). */
  lemma {:induction false} BackendCallDiscipline(hash: u64, es: seq<Event>, i: nat)
    requires Legal(NewProvider(hash), es) && OrderlyRun(NewProvider(hash), es)
    requires i < |Run(NewProvider(hash), es).objs| < TWO64
    ensures ModeOf(Run(NewProvider(hash), es).objs[i].log) != Broken
  {
    RunKeepsCalls(NewProvider(hash), es);
    assert ModeOf(Run(NewProvider(hash), es).objs[i].log) == Predicted(Run(NewProvider(hash), es), i);
  }

  /** Entry `s` of the log is the start that opened the block of entry `j`. */
  ghost predicate OpenedBy(log: seq<Call>, s: nat, j: nat)
    requires s <= j < |log|
  {
    && log[s] == StartCall(log[j].k)
    && forall t :: s < t <= j ==> !log[t].StartCall?
  }

  /** No call carries an iteration other than that of the start before it, and
      after a call that closes an iteration only a start can follow. */
  lemma {:induction false} OneIterationPerBlock(log: seq<Call>, j: nat) returns (s: nat)
    requires ModeOf(log) != Broken && j < |log|
    ensures s <= j && OpenedBy(log, s, j)
    ensures ModeOf(log[..j + 1]) != Closed && ModeOf(log[..j + 1]) != Broken ==> ModeOf(log[..j + 1]).k == log[j].k
    ensures j + 1 < |log| && Closing(log[j]) ==> log[j + 1].StartCall?
  {
    NeverRepaired(log, j + 1);
    NeverRepaired(log, j);
    assert log[..j + 1][..j] == log[..j];
    if log[j].StartCall? {
      s := j;
    } else {
      s := OneIterationPerBlock(log[..j], j - 1);
      assert log[..j][..j] == log[..j];
    }
    if j + 1 < |log| && Closing(log[j]) { AfterClosing(log, j); }
  }

  lemma {:induction false} AfterClosing(log: seq<Call>, j: nat)
    requires ModeOf(log) != Broken && j + 1 < |log| && Closing(log[j])
    ensures log[j + 1].StartCall?
  {
    NeverRepaired(log, j + 1);
    NeverRepaired(log, j + 2);
    assert log[..j + 1][..j] == log[..j];
    assert log[..j + 2][..j + 1] == log[..j + 1];
  }

  predicate Closing(c: Call) {
    c.AbortRet? || (c.CleanupRet? && c.ok) || (c.StartRet? && !c.ok)
  }

  lemma {:induction false} NeverRepaired(log: seq<Call>, n: nat)
    requires ModeOf(log) != Broken && n <= |log|
    ensures ModeOf(log[..n]) != Broken
    decreases |log|
  {
    if n == |log| {
      assert log[..n] == log;
    } else {
      NeverRepaired(log[..|log| - 1], n);
      assert log[..|log| - 1][..n] == log[..n];
    }
  }

  /** A block staged while an abort is under way reaches the backend after the
      abort did: the client must not do that. */
  lemma {:induction false} StageDuringAbortBreaksTheOrder(p: Provider, name: string, k: u64)
    requires Inv(p) && CallsOk(p) && Admit(p, name, Stage(k)).Admitted?
    ensures Serial(p, Req(name, Stage(k)))
    ensures ModeOf(Next(p, Req(name, Stage(k))).objs[p.names[name]].log) != Broken <==>
            Orderly(p, Req(name, Stage(k)))
  {
    var i := p.names[name];
    var o := p.objs[i];
    ModeOfSnoc(o.log, StageCall(k));
    assert ObjOk(p, i) && ModeOf(o.log) == Predicted(p, i);
    if !o.owner.Free? { assert HandlerOk(p, o.owner.h); }
    assert Advance(Predicted(p, i), StageCall(k)) != Broken <==> Orderly(p, Req(name, Stage(k)));
  }

  // ----- Completed iterations -----

  /** The iterations closed by a successful cleanup, in order. */
  function Completed(log: seq<Call>): seq<u64> {
    if log == [] then []
    else
      var c := log[|log| - 1];
      Completed(log[..|log| - 1]) + if c.CleanupRet? && c.ok then [c.k] else []
  }

  lemma {:induction false} CompletedSnoc(log: seq<Call>, c: Call)
    ensures Completed(log + [c]) == Completed(log) + if c.CleanupRet? && c.ok then [c.k] else []
  {
    assert (log + [c])[..|log|] == log;
  }

  /** Never decreasing, and strictly increasing after the first nonzero one. */
  ghost predicate Grows(s: seq<u64>) {
    forall a, b :: 0 <= a < b < |s| ==> s[a] <= s[b] && (s[a] != 0 ==> s[a] < s[b])
  }

  function Last(s: seq<u64>): u64 {
    if s == [] then 0 else s[|s| - 1]
  }

  /** The stored iteration is at least the last completed one. */
  ghost predicate GrowthOk(o: Obj) {
    var done := Completed(o.log);
    && Grows(done)
    && Last(done) <= o.iteration
    && (o.active ==> Last(done) == 0 || Last(done) < o.iteration)
  }

  ghost predicate AllGrow(p: Provider) {
    forall i :: 0 <= i < |p.objs| ==> GrowthOk(p.objs[i])
  }

  lemma {:induction false} CompletedAppend(done: seq<u64>, k: u64)
    requires Grows(done) && (Last(done) == 0 || Last(done) < k)
    ensures Grows(done + [k]) && Last(done + [k]) == k
  {
    assert forall a :: 0 <= a < |done| ==> done[a] <= Last(done);
  }

  lemma {:induction false} ResumeKeepsGrowth(p: Provider, h: nat, ok: bool)
    requires Wf(p) && Enabled(p, BackendRet(h, ok)) && HandlerOk(p, h) && ObjOk(p, p.handlers[h].obj)
    requires GrowthOk(p.objs[p.handlers[h].obj])
    ensures GrowthOk(Resume(p, h, ok).objs[p.handlers[h].obj])
  {
    var o := p.objs[p.handlers[h].obj];
    var done := Completed(o.log);
    assert done + [] == done;
    match p.handlers[h].pc
    case Starting(k) => CompletedSnoc(o.log, StartRet(k, ok));
    case Executing(k, auto) => CompletedSnoc(o.log, CleanupCall(k));
    case Cleaning(k, auto) =>
      CompletedSnoc(o.log, CleanupRet(k, ok));
      CompletedAppend(done, k);
    case Aborting(k) => CompletedSnoc(o.log, AbortRet(k));
  }

  lemma {:induction false} LaunchKeepsGrowth(o: Obj, r: Request)
    requires GrowthOk(o)
    ensures GrowthOk(o.(log := o.log + [FirstCall(r)]))
  {
    CompletedSnoc(o.log, FirstCall(r));
    assert Completed(o.log) + [] == Completed(o.log);
  }

  lemma {:induction false} SettledKeepsGrowth(p: Provider, q: Provider, h: nat)
    requires Wf(p) && AllGrow(p) && h < |p.handlers| && Settled(p, q, h)
    requires GrowthOk(q.objs[p.handlers[h].obj])
    ensures AllGrow(q)
  {
  }

  lemma {:induction false} NextKeepsGrowth(p: Provider, e: Event)
    requires Inv(p) && AllGrow(p) && Enabled(p, e)
    ensures AllGrow(Next(p, e))
  {
    match e
    case Req(name, r) =>
      if Admit(p, name, r).Admitted? {
        LaunchKeepsGrowth(p.objs[p.names[name]], r);
      }
    case BackendRet(h, ok) =>
      assert HandlerOk(p, h) && ObjOk(p, p.handlers[h].obj);
      ResumeKeepsGrowth(p, h, ok);
      ResumeSettles(p, h, ok);
      SettledKeepsGrowth(p, Resume(p, h, ok), h);
    case NotifyAll(h) => SettledKeepsGrowth(p, Next(p, e), h);
    case _ =>
  }

  lemma {:induction false} RunKeepsGrowth(p: Provider, es: seq<Event>)
    requires Inv(p) && AllGrow(p) && Legal(p, es) && |Run(p, es).objs| < TWO64
    ensures AllGrow(Run(p, es))
    decreases |es|
  {
    if es != [] {
      NextKeepsInv(p, es[0]);
      NextKeepsGrowth(p, es[0]);
      RunKeepsGrowth(Next(p, es[0]), es[1..]);
    }
  }

  /** Over any run, with starts that fail and iterations that are aborted and
      restarted, the completed iterations of a pipeline only grow. */
  lemma {:induction false} CompletedIterationsGrow(hash: u64, es: seq<Event>, i: nat)
    requires Legal(NewProvider(hash), es) && |Run(NewProvider(hash), es).objs| < TWO64
    requires i < |Run(NewProvider(hash), es).objs|
    ensures Grows(Completed(Run(NewProvider(hash), es).objs[i].log))
  {
    RunKeepsGrowth(NewProvider(hash), es);
    assert GrowthOk(Run(NewProvider(hash), es).objs[i]);
  }
}

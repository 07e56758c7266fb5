/** Requests that run to their end before anything else happens on the provider,
    and what a start followed by an abort leaves behind. */
module ProviderWhole {
  import opened Words
  import opened ProviderSpec

  /** No lifecycle handler is in flight on the pipeline of that name. */
  ghost predicate Quiet(p: Provider, name: string) {
    && Inv(p) && |p.objs| < TWO64
    && (name in p.names ==> p.objs[p.names[name]].owner.Free?)
  }

  function WholeStart(p: Provider, name: string, hash: u64, k: u64, ok: bool): (q: Provider)
    requires Wf(p)
    ensures Wf(q)
  {
    var h := |p.handlers|;
    var req := Req(name, Start(hash, k));
    if Admit(p, name, Start(hash, k)).Refused? then p
    else if ok then Next(Next(p, req), BackendRet(h, true))
    else Next(Next(Next(p, req), BackendRet(h, false)), NotifyAll(h))
  }

  function WholeAbort(p: Provider, name: string, k: u64): (q: Provider)
    requires Wf(p)
    ensures Wf(q)
  {
    var h := |p.handlers|;
    if Admit(p, name, Abort(k)).Refused? then p
    else Next(Next(Next(p, Req(name, Abort(k))), BackendRet(h, true)), NotifyAll(h))
  }

  /** The last handler moves on. */
  lemma {:induction false} HandlerMoves(hs: seq<Handler>, i: nat, pc: Pc)
    ensures forall x, y :: (hs + [Handler(i, x)])[|hs| := Handler(i, y)] == hs + [Handler(i, y)]
  {
  }

  lemma {:induction false} LogTwice(log: seq<Call>, c: Call, d: Call)
    ensures log + [c] + [d] == log + [c, d]
  {
  }

  lemma {:induction false} WholeStartEffect(p: Provider, name: string, hash: u64, k: u64, ok: bool)
    requires Quiet(p, name) && Admit(p, name, Start(hash, k)).Admitted?
    ensures var i := p.names[name];
            var o := p.objs[i].(log := p.objs[i].log + [StartCall(k), StartRet(k, ok)]);
            WholeStart(p, name, hash, k, ok) ==
            if ok then
              p.(objs := p.objs[i := o.(active := true, iteration := k)],
                 handlers := p.handlers + [Handler(i, Done)], count := Inc(p.count))
            else
              p.(objs := p.objs[i := o], handlers := p.handlers + [Handler(i, Done)],
                 awake := p.awake + p.asleep, asleep := 0)
    ensures Inc(p.count) == p.count + 1
    ensures Quiet(WholeStart(p, name, hash, k, ok), name)
  {
    WholeStartKeepsInv(p, name, hash, k, ok);
    if ok {
      StartEndsWell(p, name, hash, k);
    } else {
      StartFails(p, name, hash, k);
    }
  }

  lemma {:induction false} StartEndsWell(p: Provider, name: string, hash: u64, k: u64)
    requires Wf(p) && Admit(p, name, Start(hash, k)).Admitted? && p.objs[p.names[name]].owner.Free?
    ensures var i := p.names[name];
            var o := p.objs[i].(log := p.objs[i].log + [StartCall(k), StartRet(k, true)]);
            WholeStart(p, name, hash, k, true) ==
            p.(objs := p.objs[i := o.(active := true, iteration := k)],
               handlers := p.handlers + [Handler(i, Done)], count := Inc(p.count))
  {
    LogTwice(p.objs[p.names[name]].log, StartCall(k), StartRet(k, true));
    HandlerMoves(p.handlers, p.names[name], Starting(k));
  }

  lemma {:induction false} StartFails(p: Provider, name: string, hash: u64, k: u64)
    requires Wf(p) && Admit(p, name, Start(hash, k)).Admitted? && p.objs[p.names[name]].owner.Free?
    requires Inc(p.count) == p.count + 1
    ensures var i := p.names[name];
            var o := p.objs[i].(log := p.objs[i].log + [StartCall(k), StartRet(k, false)]);
            WholeStart(p, name, hash, k, false) ==
            p.(objs := p.objs[i := o], handlers := p.handlers + [Handler(i, Done)],
               awake := p.awake + p.asleep, asleep := 0)
  {
    LogTwice(p.objs[p.names[name]].log, StartCall(k), StartRet(k, false));
    HandlerMoves(p.handlers, p.names[name], Starting(k));
    HandlerMoves(p.handlers, p.names[name], Notifying);
  }

  lemma {:induction false} WholeStartKeepsInv(p: Provider, name: string, hash: u64, k: u64, ok: bool)
    requires Quiet(p, name) && Admit(p, name, Start(hash, k)).Admitted?
    ensures Inv(WholeStart(p, name, hash, k, ok)) && Inc(p.count) == p.count + 1
  {
    var h, p1 := |p.handlers|, Next(p, Req(name, Start(hash, k)));
    NextKeepsInv(p, Req(name, Start(hash, k)));
    BusyUpdate(p.objs, p.names[name], p1.objs[p.names[name]]);
    NextKeepsInv(p1, BackendRet(h, ok));
    if !ok { NextKeepsInv(Next(p1, BackendRet(h, ok)), NotifyAll(h)); }
  }

  lemma {:induction false} WholeAbortEffect(p: Provider, name: string, k: u64)
    requires Quiet(p, name) && Admit(p, name, Abort(k)).Admitted?
    ensures var i := p.names[name];
            var o := p.objs[i].(log := p.objs[i].log + [AbortCall(k), AbortRet(k)]);
            p.count > 0 &&
            WholeAbort(p, name, k) ==
              p.(objs := p.objs[i := o.(active := false, iteration := Dec(k))],
                 handlers := p.handlers + [Handler(i, Done)], count := p.count - 1,
                 awake := p.awake + p.asleep, asleep := 0)
    ensures Quiet(WholeAbort(p, name, k), name)
  {
    var i, h := p.names[name], |p.handlers|;
    BusyZero(p.objs, i);
    var p1 := Next(p, Req(name, Abort(k)));
    NextKeepsInv(p, Req(name, Abort(k)));
    NextKeepsInv(p1, BackendRet(h, true));
    NextKeepsInv(Next(p1, BackendRet(h, true)), NotifyAll(h));
    LogTwice(p.objs[i].log, AbortCall(k), AbortRet(k));
    HandlerMoves(p.handlers, i, Aborting(k));
    HandlerMoves(p.handlers, i, Notifying);
  }

  function WholeCleanup(p: Provider, name: string, k: u64, ok: bool): (q: Provider)
    requires Wf(p)
    ensures Wf(q)
  {
    var h := |p.handlers|;
    if Admit(p, name, Cleanup(k)).Refused? then p
    else
      var r := Next(Next(p, Req(name, Cleanup(k))), BackendRet(h, ok));
      if ok then Next(r, NotifyAll(h)) else r
  }

  /** `ok` and `cleaned` are the answers of the backend's execute and cleanup. */
  function WholeExecute(p: Provider, name: string, k: u64, auto: bool, ok: bool, cleaned: bool): (q: Provider)
    requires Wf(p)
    ensures Wf(q)
  {
    var h := |p.handlers|;
    if Admit(p, name, Execute(k, auto)).Refused? then p
    else
      var r := Next(Next(p, Req(name, Execute(k, auto))), BackendRet(h, ok));
      if ok && auto then Next(Next(r, BackendRet(h, cleaned)), NotifyAll(h)) else r
  }

  /** What closing pipeline i with these calls leaves, if `ok`; the calls alone if not. */
  function Closed(p: Provider, i: nat, calls: seq<Call>, ok: bool): Provider
    requires i < |p.objs| && p.count > 0
  {
    var o := p.objs[i].(log := p.objs[i].log + calls);
    var q := p.(objs := p.objs[i := o], handlers := p.handlers + [Handler(i, Done)]);
    if ok then q.(objs := p.objs[i := o.(active := false)], count := p.count - 1) else q
  }

  lemma {:induction false} WholeCleanupEffect(p: Provider, name: string, k: u64, ok: bool)
    requires Quiet(p, name) && Admit(p, name, Cleanup(k)).Admitted?
    ensures p.count > 0
    ensures var q := Closed(p, p.names[name], [CleanupCall(k), CleanupRet(k, ok)], ok);
            WholeCleanup(p, name, k, ok) == if ok then q.(awake := p.awake + p.asleep, asleep := 0) else q
    ensures Quiet(WholeCleanup(p, name, k, ok), name)
  {
    var i, h := p.names[name], |p.handlers|;
    BusyZero(p.objs, i);
    var p1 := Next(p, Req(name, Cleanup(k)));
    NextKeepsInv(p, Req(name, Cleanup(k)));
    NextKeepsInv(p1, BackendRet(h, ok));
    LogTwice(p.objs[i].log, CleanupCall(k), CleanupRet(k, ok));
    HandlerMoves(p.handlers, i, Cleaning(k, false));
    if ok { NextKeepsInv(Next(p1, BackendRet(h, ok)), NotifyAll(h)); }
  }

  /** An execute, with the cleanup that follows it if it ended well and was asked to:
      notify_all comes after that cleanup whatever its answer. */
  lemma {:induction false} WholeExecuteEffect(p: Provider, name: string, k: u64, auto: bool, ok: bool, cleaned: bool)
    requires Quiet(p, name) && Admit(p, name, Execute(k, auto)).Admitted?
    ensures p.count > 0
    ensures WholeExecute(p, name, k, auto, ok, cleaned) ==
            if ok && auto then
              Closed(p, p.names[name], [ExecuteCall(k), CleanupCall(k), CleanupRet(k, cleaned)], cleaned)
                .(awake := p.awake + p.asleep, asleep := 0)
            else Closed(p, p.names[name], [ExecuteCall(k)], false)
    ensures Quiet(WholeExecute(p, name, k, auto, ok, cleaned), name)
  {
    var i, h := p.names[name], |p.handlers|;
    BusyZero(p.objs, i);
    var p1 := Next(p, Req(name, Execute(k, auto)));
    NextKeepsInv(p, Req(name, Execute(k, auto)));
    NextKeepsInv(p1, BackendRet(h, ok));
    HandlerMoves(p.handlers, i, Executing(k, auto));
    if ok && auto {
      AutoCleanupEffect(p, Next(p1, BackendRet(h, ok)), name, k, cleaned);
    }
  }

  /** q is p in the middle of the automatic cleanup. */
  lemma {:induction false} AutoCleanupEffect(p: Provider, q: Provider, name: string, k: u64, cleaned: bool)
    requires Quiet(p, name) && Admit(p, name, Execute(k, true)).Admitted? && p.count > 0 && Inv(q)
    requires var i, h := p.names[name], |p.handlers|;
             q == p.(objs := p.objs[i := p.objs[i].(log := p.objs[i].log + [ExecuteCall(k)] + [CleanupCall(k)],
                                                    owner := HeldBy(h))],
                     handlers := p.handlers + [Handler(i, Cleaning(k, true))])
    ensures var h := |p.handlers|;
            var r := Next(Next(q, BackendRet(h, cleaned)), NotifyAll(h));
            && r == Closed(p, p.names[name], [ExecuteCall(k), CleanupCall(k), CleanupRet(k, cleaned)], cleaned)
                      .(awake := p.awake + p.asleep, asleep := 0)
            && Inv(r)
  {
    var i, h := p.names[name], |p.handlers|;
    NextKeepsInv(q, BackendRet(h, cleaned));
    NextKeepsInv(Next(q, BackendRet(h, cleaned)), NotifyAll(h));
    LogTwice(p.objs[i].log, ExecuteCall(k), CleanupCall(k));
    LogThrice(p.objs[i].log, ExecuteCall(k), CleanupCall(k), CleanupRet(k, cleaned));
    HandlerMoves(p.handlers, i, Cleaning(k, true));
    HandlerMoves(p.handlers, i, Notifying);
  }

  lemma {:induction false} LogThrice(log: seq<Call>, c: Call, d: Call, e: Call)
    ensures log + [c, d] + [e] == log + [c, d, e]
  {
  }

  // ----- An iteration that is completed -----

  /** Which pipelines are active, and the counter. */
  ghost predicate SameActivity(p: Provider, q: Provider) {
    && p.count == q.count
    && p.names == q.names
    && |p.objs| == |q.objs|
    && forall i :: 0 <= i < |p.objs| ==> p.objs[i].active == q.objs[i].active
  }

  /** Start(k), and a cleanup that succeeds: by itself, or after an execute. */
  function Completed(p: Provider, name: string, k: u64, byExecute: bool): (q: Provider)
    requires Wf(p)
    ensures Wf(q)
  {
    var q := WholeStart(p, name, p.hash, k, true);
    if byExecute then WholeExecute(q, name, k, true, true, true) else WholeCleanup(q, name, k, true)
  }

  /** A completed iteration leaves the same pipelines active and the counter where it
      was; the next start is accepted exactly for a larger iteration, or for any if
      the completed one was 0. */
  lemma {:induction false} IterationEnds(p: Provider, name: string, k: u64, byExecute: bool, j: u64)
    requires Quiet(p, name) && Admit(p, name, Start(p.hash, k)).Admitted?
    ensures var q := Completed(p, name, k, byExecute);
            && Quiet(q, name) && SameActivity(p, q) && q.hash == p.hash
            && Admit(q, name, Start(q.hash, j)) ==
               if k == 0 || k < j then Admitted(p.names[name]) else Refused(INVALID_ITERATION)
  {
    var q := WholeStart(p, name, p.hash, k, true);
    WholeStartEffect(p, name, p.hash, k, true);
    if byExecute {
      WholeExecuteEffect(q, name, k, true, true, true);
    } else {
      WholeCleanupEffect(q, name, k, true);
    }
  }

  // ----- A start that is taken back -----

  /** A start, and an abort if it was accepted, leave the same pipelines active
      and the counter where it was. */
  lemma {:induction false} StartThenAbort(p: Provider, name: string, hash: u64, k: u64)
    requires Quiet(p, name)
    ensures var q := WholeStart(p, name, hash, k, true);
            Quiet(q, name) &&
            if Admit(p, name, Start(hash, k)).Refused? then q == p
            else
              var r := WholeAbort(q, name, k);
              && Admit(q, name, Abort(k)).Admitted?
              && Quiet(r, name) && SameActivity(p, r) && r.hash == p.hash
              && r.objs[p.names[name]].iteration == Dec(k)
              && forall i :: 0 <= i < |p.objs| && i != p.names[name] ==> r.objs[i] == p.objs[i]
  {
    if Admit(p, name, Start(hash, k)).Admitted? {
      WholeStartEffect(p, name, hash, k, true);
      WholeAbortEffect(WholeStart(p, name, hash, k, true), name, k);
    }
  }

  /** After start(k) and abort(k), start(j) is accepted exactly when k is not 0
      and either k is 1 or j is at least k; so start(k) itself stays acceptable
      exactly when k is not 0. */
  lemma {:induction false} GuardAfterAbort(p: Provider, name: string, k: u64, j: u64)
    requires Quiet(p, name) && Admit(p, name, Start(p.hash, k)).Admitted?
    ensures var q := WholeAbort(WholeStart(p, name, p.hash, k, true), name, k);
            Admit(q, name, Start(p.hash, j)) ==
            if k != 0 && (k == 1 || k <= j) then Admitted(p.names[name]) else Refused(INVALID_ITERATION)
  {
    StartThenAbort(p, name, p.hash, k);
  }

  /** One round: start(k), and abort(k) if the start was accepted. */
  function Round(p: Provider, name: string, k: u64): (q: Provider)
    requires Wf(p)
    ensures Wf(q)
  {
    WholeAbort(WholeStart(p, name, p.hash, k, true), name, k)
  }

  ghost predicate IsRound(ps: seq<Provider>, n: nat, name: string, k: u64)
    requires 0 < n < |ps|
  {
    Wf(ps[n - 1]) && ps[n] == Round(ps[n - 1], name, k)
  }

  /** The states between rounds. */
  ghost predicate AreRounds(ps: seq<Provider>, name: string, k: u64) {
    |ps| > 0 && forall n :: 0 < n < |ps| ==> IsRound(ps, n, name, k)
  }

  /** What n rounds leave behind: at k >= 1 start(k) is still acceptable; at 0
      every later start is refused. */
  ghost predicate RoundsLeave(p: Provider, q: Provider, name: string, k: u64, n: nat) {
    && Quiet(q, name) && SameActivity(p, q) && q.hash == p.hash
    && (n == 0 || k != 0 ==> Admit(q, name, Start(q.hash, k)).Admitted?)
    && (n > 0 && k == 0 ==> forall j :: Admit(q, name, Start(q.hash, j)) == Refused(INVALID_ITERATION))
  }

  lemma {:induction false} OneMoreRound(p: Provider, q: Provider, name: string, k: u64, n: nat)
    requires Wf(p) && name in p.names && !p.objs[p.names[name]].active
    requires RoundsLeave(p, q, name, k, n)
    ensures RoundsLeave(p, Round(q, name, k), name, k, n + 1)
  {
    StartThenAbort(q, name, q.hash, k);
    if Admit(q, name, Start(q.hash, k)).Admitted? {
      forall j { GuardAfterAbort(q, name, k, j); }
    }
  }

  /** Any number of rounds at k >= 1 leaves start(k) acceptable; after rounds at
      0 every later start on that state is refused. */
  lemma {:induction false} AbortLeavesIterationStartable(ps: seq<Provider>, name: string, k: u64, n: nat)
    requires AreRounds(ps, name, k) && n < |ps|
    requires Quiet(ps[0], name) && Admit(ps[0], name, Start(ps[0].hash, k)).Admitted?
    ensures RoundsLeave(ps[0], ps[n], name, k, n)
  {
    if n > 0 {
      AbortLeavesIterationStartable(ps, name, k, n - 1);
      assert IsRound(ps, n, name, k);
      OneMoreRound(ps[0], ps[n - 1], name, k, n - 1);
    }
  }
}

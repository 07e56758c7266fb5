/** One attempt to start an iteration on every provider of a view: the start
    requests, and, if one of them failed, taking the others back. */
module Attempts {
  import opened Words
  import opened GroupHash
  import opened ProviderSpec
  import opened ProviderRuns
  import opened ProviderWhole
  import opened Elastic
  import opened Folds
  import opened Requests
  import opened FanOuts
  import Lockstep

  /** What an attempt meets: the answers of the backends, and what happens before
      each reply to a start and to an abort. */
  datatype Plan = Plan(backends: nat -> BackendResult, sends: nat -> seq<Item>, aborts: nat -> seq<Item>)

  function StartsTo(view: seq<nat>, hash: u64, k: u64, plan: Plan): seq<Asked> {
    seq(|view|, j requires 0 <= j < |view| => Asked(view[j], Start(hash, k), plan.backends(j), None, Sent))
  }

  function AbortsTo(started: seq<nat>, k: u64): seq<Asked> {
    seq(|started|, j requires 0 <= j < |started| => Asked(started[j], Abort(k), Good, None, Sent))
  }

  predicate Accepts(a: Asked) {
    a.st == Answered(None)
  }

  predicate RefusedForHash(a: Asked) {
    a.st == Answered(Some(INVALID_GROUP_HASH))
  }

  /** The providers among the first n that replied success. */
  function Started(asked: seq<Asked>, n: nat): seq<nat>
    requires n <= |asked|
  {
    if n == 0 then [] else Started(asked, n - 1) + if Accepts(asked[n - 1]) then [asked[n - 1].x] else []
  }

  function OutcomeIn(asked: seq<Asked>): Lockstep.Outcome {
    if forall j :: 0 <= j < |asked| ==> Accepts(asked[j]) then Lockstep.Started
    else if exists j :: 0 <= j < |asked| && RefusedForHash(asked[j]) then Lockstep.HashMismatch
    else Lockstep.OtherFailure
  }

  /** All start requests were answered. */
  function Concluded(s: System, view: seq<nat>, name: string, hash: u64, k: u64, plan: Plan): Net
    requires SysWf(s)
  {
    AfterReplies(Net(s, StartsTo(view, hash, k, plan)), name, plan.sends, |view|)
  }

  /** ... and those that did start were aborted. */
  function TakenBackFrom(net: Net, name: string, k: u64, plan: Plan): Net {
    var started := Started(net.asked, |net.asked|);
    AfterReplies(Net(net.sys, AbortsTo(started, k)), name, plan.aborts, |started|)
  }

  function AfterAttempt(s: System, view: seq<nat>, name: string, hash: u64, k: u64, plan: Plan): (t: System)
    requires SysWf(s)
    ensures SysWf(t)
  {
    var net := Concluded(s, view, name, hash, k, plan);
    if OutcomeIn(net.asked).Started? then net.sys else TakenBackFrom(net, name, k, plan).sys
  }

  // ----- How one provider fares -----

  datatype Fate = Untouched | FailedThere | StartedThere | TakenBack

  /** Names and membership, apart from the pipelines. */
  ghost predicate SameNames(p0: Provider, p: Provider) {
    (p.names == p0.names || p.left) && (p0.left ==> p.left)
  }

  ghost predicate OneObj(p0: Provider, p: Provider, name: string, o: Obj) {
    && name in p0.names && p0.names[name] < |p0.objs| && SameNames(p0, p)
    && p.objs == p0.objs[p0.names[name] := o]
  }

  /** Exactly what became of a provider's pipelines and counter. */
  ghost predicate Fared(p0: Provider, p: Provider, name: string, k: u64, fate: Fate) {
    if fate.Untouched? then Kept(p0, p)
    else
      && name in p0.names && p0.names[name] < |p0.objs|
      && var o := p0.objs[p0.names[name]];
         !o.active &&
         match fate
         case FailedThere =>
           && OneObj(p0, p, name, o.(log := o.log + [StartCall(k), StartRet(k, false)]))
           && p.count == p0.count
         case StartedThere =>
           && OneObj(p0, p, name, o.(log := o.log + [StartCall(k), StartRet(k, true)], active := true, iteration := k))
           && p.count == p0.count + 1
         case TakenBack =>
           && OneObj(p0, p, name, o.(log := o.log + [StartCall(k), StartRet(k, true)] + [AbortCall(k), AbortRet(k)],
                                     iteration := Dec(k)))
           && p.count == p0.count
  }

  lemma {:induction false} FaredStays(p0: Provider, p: Provider, q: Provider, name: string, k: u64, fate: Fate)
    requires Fared(p0, p, name, k, fate) && Kept(p, q)
    ensures Fared(p0, q, name, k, fate)
  {
  }

  /** What a start request did. */
  ghost function FateOfStart(a: Asked, name: string): Fate {
    if Accepts(a) then StartedThere
    else if a.seen.Some? && Wf(a.seen.value) && Admit(a.seen.value, name, a.r).Admitted? then FailedThere
    else Untouched
  }

  /** ... and what is left of it at the end of the attempt. */
  ghost function FateOf(a: Asked, name: string, ok: bool): Fate {
    if Accepts(a) && !ok then TakenBack else FateOfStart(a, name)
  }

  lemma {:induction false} StartFares(p0: Provider, p: Provider, a: Asked, name: string, hash: u64, k: u64)
    requires Local(p0, p, a, name) && a.st.Answered? && a.r == Start(hash, k) && Quiet(p0, name)
    ensures Fared(p0, p, name, k, FateOfStart(a, name))
  {
    var q := a.seen.value;
    if Admit(q, name, a.r).Admitted? {
      WholeStartEffect(q, name, hash, k, a.b.Good?);
    }
  }

  lemma {:induction false} AbortFares(p0: Provider, p1: Provider, p: Provider, a: Asked, name: string, k: u64)
    requires Fared(p0, p1, name, k, StartedThere) && Quiet(p1, name)
    requires Local(p1, p, a, name) && a.st.Answered? && a.r == Abort(k)
    ensures Fared(p0, p, name, k, TakenBack)
  {
    var q, i := a.seen.value, p0.names[name];
    BusyZero(q.objs, i);
    BusyZero(p1.objs, i);
    WholeAbortEffect(q, name, k);
    UpdateTwice(p0.objs, i, p1.objs[i], p.objs[i]);
  }

  lemma {:induction false} UpdateTwice(objs: seq<Obj>, i: nat, o: Obj, o': Obj)
    requires i < |objs|
    ensures objs[i := o][i := o'] == objs[i := o']
  {
  }

  // ----- The requests of an attempt -----

  /** The view consists of providers of the group, each once. */
  ghost predicate ViewOk(view: seq<nat>, n: nat) {
    && (forall j :: 0 <= j < |view| ==> view[j] < n)
    && (forall a, b :: 0 <= a < b < |view| ==> view[a] != view[b])
  }

  /** All start requests were answered; this is what each provider made of its own. */
  ghost predicate StartsAnswered(s: System, net: Net, view: seq<nat>, name: string, hash: u64, k: u64, plan: Plan) {
    && |net.asked| == |view| && NetOk(s, net, name) && Ready(net.sys, name) && AnsweredUpTo(net.asked, |view|)
    && forall j :: 0 <= j < |view| ==>
         && net.asked[j].x == view[j] && net.asked[j].r == Start(hash, k) && net.asked[j].b == plan.backends(j)
         && FaresAt(s, net.sys, net.asked[j], name, k, FateOfStart(net.asked[j], name))
  }

  ghost predicate FaresAt(s: System, t: System, a: Asked, name: string, k: u64, fate: Fate) {
    a.x < |s.servers| <= |t.servers| && Fared(s.servers[a.x].prov, t.servers[a.x].prov, name, k, fate)
  }

  lemma {:induction false} StartsEnd(s: System, view: seq<nat>, name: string, hash: u64, k: u64, plan: Plan)
    requires Ready(s, name) && ViewOk(view, |s.servers|)
    ensures StartsAnswered(s, Concluded(s, view, name, hash, k, plan), view, name, hash, k, plan)
  {
    var sent := Net(s, StartsTo(view, hash, k, plan));
    SentOk(s, sent.asked, name);
    FanOutEnds(s, sent, name, plan.sends);
    var net := Concluded(s, view, name, hash, k, plan);
    forall j | 0 <= j < |view|
      ensures net.asked[j].x == view[j] && net.asked[j].r == Start(hash, k) && net.asked[j].b == plan.backends(j)
      ensures FaresAt(s, net.sys, net.asked[j], name, k, FateOfStart(net.asked[j], name))
    {
      assert LocalAt(s, net, j, name) && sent.asked[j].x == view[j] && Quiet(s.servers[view[j]].prov, name);
      StartFares(s.servers[view[j]].prov, net.sys.servers[view[j]].prov, net.asked[j], name, hash, k);
    }
  }

  ghost predicate IsStarted(asked: seq<Asked>, n: nat, x: nat) {
    exists j :: 0 <= j < n <= |asked| && Accepts(asked[j]) && asked[j].x == x
  }

  lemma {:induction false} StartedMembers(asked: seq<Asked>, n: nat, bound: nat)
    requires n <= |asked| && Targets(asked, bound)
    ensures ViewOk(Started(asked, n), bound)
    ensures forall x: nat :: x in Started(asked, n) <==> IsStarted(asked, n, x)
  {
    if n > 0 {
      StartedMembers(asked, n - 1, bound);
      forall x: nat
        ensures IsStarted(asked, n, x) <==> IsStarted(asked, n - 1, x) || (Accepts(asked[n - 1]) && asked[n - 1].x == x)
      {
      }
      assert !IsStarted(asked, n - 1, asked[n - 1].x);
    }
  }

  /** An abort went to the provider of a, and was handled to its end, exactly if a
      was accepted. */
  ghost predicate AbortedOrKept(s1: System, after: RawNet, a: Asked, name: string, k: u64) {
    && a.x < |s1.servers| <= |after.sys.servers|
    && if Accepts(a) then exists m :: IsAbortOf(s1, after, m, a.x, name, k)
       else Kept(s1.servers[a.x].prov, after.sys.servers[a.x].prov)
  }

  ghost predicate IsAbortOf(s1: System, after: RawNet, m: int, x: nat, name: string, k: u64) {
    && x < |s1.servers| <= |after.sys.servers|
    && 0 <= m < |after.asked| && after.asked[m].x == x && after.asked[m].r == Abort(k) && after.asked[m].st.Answered?
    && Local(s1.servers[x].prov, after.sys.servers[x].prov, after.asked[m], name)
  }

  lemma {:induction false} AbortsReach(s1: System, asked: seq<Asked>, after: RawNet, name: string, k: u64, j: nat)
    requires Targets(asked, |s1.servers|) && j < |asked|
    requires EachLocal(s1, after, name) && OthersKept(s1, after) && AnsweredUpTo(after.asked, |after.asked|)
    requires SameAsked(AbortsTo(Started(asked, |asked|), k), after.asked)
    ensures AbortedOrKept(s1, after, asked[j], name, k)
  {
    var started, x := Started(asked, |asked|), asked[j].x;
    StartedMembers(asked, |asked|, |s1.servers|);
    if Accepts(asked[j]) {
      assert IsStarted(asked, |asked|, x);
      var m :| 0 <= m < |started| && started[m] == x;
      assert LocalAt(s1, after, m, name) && AbortsTo(started, k)[m].x == x;
      assert IsAbortOf(s1, after, m, x, name, k);
    } else {
      OnlyItself(asked, started, j);
      NotAborted(after.asked, started, k, x);
    }
  }

  lemma {:induction false} OnlyItself(asked: seq<Asked>, started: seq<nat>, j: nat)
    requires forall y: nat :: y in started ==> IsStarted(asked, |asked|, y)
    requires j < |asked| && !Accepts(asked[j]) && forall a, b :: 0 <= a < b < |asked| ==> asked[a].x != asked[b].x
    ensures asked[j].x !in started
  {
  }

  lemma {:induction false} NotAborted(after: seq<Asked>, started: seq<nat>, k: u64, x: nat)
    requires SameAsked(AbortsTo(started, k), after) && x !in started
    ensures !Addressed(after, x)
  {
    forall j | 0 <= j < |after|
      ensures after[j].x != x
    {
      assert AbortsTo(started, k)[j].x == started[j];
    }
  }

  lemma {:induction false} NothingToAbort(asked: seq<Asked>, bound: nat, after: seq<Asked>, k: u64, x: nat)
    requires Targets(asked, bound) && !Addressed(asked, x)
    requires SameAsked(AbortsTo(Started(asked, |asked|), k), after)
    ensures !Addressed(after, x)
  {
    StartedMembers(asked, |asked|, bound);
    NotAborted(after, Started(asked, |asked|), k, x);
  }

  lemma {:induction false} OneTakenBack(s: System, s1: System, after: RawNet, a: Asked, name: string, k: u64)
    requires FaresAt(s, s1, a, name, k, FateOfStart(a, name)) && AbortedOrKept(s1, after, a, name, k)
    requires a.x < |s1.servers| && Quiet(s1.servers[a.x].prov, name)
    ensures FaresAt(s, after.sys, a, name, k, FateOf(a, name, false))
  {
    var p0, p1, p := s.servers[a.x].prov, s1.servers[a.x].prov, after.sys.servers[a.x].prov;
    if Accepts(a) {
      var m :| IsAbortOf(s1, after, m, a.x, name, k);
      AbortFares(p0, p1, p, after.asked[m], name, k);
    } else {
      FaredStays(p0, p1, p, name, k, FateOfStart(a, name));
    }
  }

  /** What an attempt that failed leaves. */
  ghost predicate AllTakenBack(s: System, asked: seq<Asked>, t: System, name: string, k: u64) {
    && |s.servers| <= |t.servers|
    && (forall j :: 0 <= j < |asked| ==> FaresAt(s, t, asked[j], name, k, FateOf(asked[j], name, false)))
    && (forall x :: 0 <= x < |s.servers| ==> Addressed(asked, x) || Kept(s.servers[x].prov, t.servers[x].prov))
  }

  lemma {:induction false} AbortsEnd(net: Net, name: string, k: u64, plan: Plan, n: nat)
    requires Ready(net.sys, name) && Targets(net.asked, n) && n <= |net.sys.servers|
    ensures var after := TakenBackFrom(net, name, k, plan);
            && Ready(after.sys, name) && Calm(net.sys, after.sys)
            && EachLocal(net.sys, after, name) && OthersKept(net.sys, after)
            && AnsweredUpTo(after.asked, |after.asked|)
            && SameAsked(AbortsTo(Started(net.asked, |net.asked|), k), after.asked)
  {
    var started := Started(net.asked, |net.asked|);
    var sent := Net(net.sys, AbortsTo(started, k));
    StartedMembers(net.asked, |net.asked|, n);
    SentOk(net.sys, sent.asked, name);
    FanOutEnds(net.sys, sent, name, plan.aborts);
  }

  lemma {:induction false} TakingBack(s: System, net: RawNet, after: RawNet, name: string, k: u64)
    requires Ready(net.sys, name) && Targets(net.asked, |s.servers|) && OthersKept(s, net)
    requires forall j :: 0 <= j < |net.asked| ==> FaresAt(s, net.sys, net.asked[j], name, k,
        FateOfStart(net.asked[j], name))
    requires EachLocal(net.sys, after, name) && OthersKept(net.sys, after) && AnsweredUpTo(after.asked, |after.asked|)
    requires SameAsked(AbortsTo(Started(net.asked, |net.asked|), k), after.asked)
    ensures AllTakenBack(s, net.asked, after.sys, name, k)
  {
    forall j | 0 <= j < |net.asked|
      ensures FaresAt(s, after.sys, net.asked[j], name, k, FateOf(net.asked[j], name, false))
    {
      AbortsReach(net.sys, net.asked, after, name, k, j);
      assert Quiet(net.sys.servers[net.asked[j].x].prov, name);
      OneTakenBack(s, net.sys, after, net.asked[j], name, k);
    }
    forall x | 0 <= x < |s.servers|
      ensures Addressed(net.asked, x) || Kept(s.servers[x].prov, after.sys.servers[x].prov)
    {
      if !Addressed(net.asked, x) {
        NothingToAbort(net.asked, |s.servers|, after.asked, k, x);
        KeptTrans(s.servers[x].prov, net.sys.servers[x].prov, after.sys.servers[x].prov);
      }
    }
  }

  // ----- All or nothing -----

  /** Every provider of the view fared as the reply to its request says, and all
      others are as they were. */
  ghost predicate AllFared(s: System, view: seq<nat>, asked: seq<Asked>, t: System, name: string, k: u64, ok: bool) {
    && |asked| == |view| && |s.servers| <= |t.servers|
    && (forall j :: 0 <= j < |view| ==>
          asked[j].x == view[j] && FaresAt(s, t, asked[j], name, k, FateOf(asked[j], name, ok)))
    && (forall x: nat :: x < |s.servers| && x !in view ==> Kept(s.servers[x].prov, t.servers[x].prov))
  }

  /** All or nothing: in an attempt, for any number of providers, any replies, and
      any interleaving with membership events, either all providers of the view
      are started or those that did start are taken back. */
  lemma {:induction false} AllOrNothing(s: System, view: seq<nat>, name: string, hash: u64, k: u64, plan: Plan)
    requires Ready(s, name) && ViewOk(view, |s.servers|)
    ensures var net, t := Concluded(s, view, name, hash, k, plan), AfterAttempt(s, view, name, hash, k, plan);
            && Ready(t, name) && Calm(s, t)
            && AllFared(s, view, net.asked, t, name, k, OutcomeIn(net.asked).Started?)
  {
    var net := Concluded(s, view, name, hash, k, plan);
    StartsEnd(s, view, name, hash, k, plan);
    if OutcomeIn(net.asked).Started? {
      AllStarted(s, view, net, name, hash, k, plan);
    } else {
      NotAllStarted(s, view, net, name, hash, k, plan);
    }
  }

  lemma {:induction false} AllStarted(s: System, view: seq<nat>, net: Net, name: string, hash: u64, k: u64, plan: Plan)
    requires StartsAnswered(s, net, view, name, hash, k, plan)
    ensures AllFared(s, view, net.asked, net.sys, name, k, true)
  {
    forall x: nat | x < |s.servers| && x !in view
      ensures Kept(s.servers[x].prov, net.sys.servers[x].prov)
    {
      NotInView(net.asked, view, x);
    }
  }

  lemma {:induction false} NotAllStarted(s: System, view: seq<nat>, net: Net, name: string, hash: u64, k: u64,
                                         plan: Plan)
    requires StartsAnswered(s, net, view, name, hash, k, plan)
    ensures var t := TakenBackFrom(net, name, k, plan).sys;
            Ready(t, name) && Calm(s, t) && AllFared(s, view, net.asked, t, name, k, false)
  {
    AbortsEnd(net, name, k, plan, |s.servers|);
    var after := TakenBackFrom(net, name, k, plan);
    TakingBack(s, net, after, name, k);
    CalmTrans(s, net.sys, after.sys);
    OnView(s, view, net.asked, after.sys, name, k);
  }

  lemma {:induction false} OnView(s: System, view: seq<nat>, asked: seq<Asked>, t: System, name: string, k: u64)
    requires AllTakenBack(s, asked, t, name, k)
    requires |asked| == |view| && forall j :: 0 <= j < |view| ==> asked[j].x == view[j]
    ensures AllFared(s, view, asked, t, name, k, false)
  {
    forall x: nat | x < |s.servers| && x !in view
      ensures Kept(s.servers[x].prov, t.servers[x].prov)
    {
      NotInView(asked, view, x);
    }
  }

  lemma {:induction false} NotInView(asked: seq<Asked>, view: seq<nat>, x: nat)
    requires |asked| == |view| && x !in view && forall j :: 0 <= j < |view| ==> asked[j].x == view[j]
    ensures !Addressed(asked, x)
  {
  }

  // ----- What the outcome means -----

  /** Request a was answered by its provider in the state in which it found it. */
  ghost predicate AnsweredBy(s: System, a: Asked, name: string) {
    && a.x < |s.servers| && a.seen.Some? && Wf(a.seen.value) && Kept(s.servers[a.x].prov, a.seen.value)
    && a.st == Answered(ReplyOf(a.seen.value, name, a.r, a.b))
  }

  /** No backend answers with the code of a hash mismatch by itself. */
  ghost predicate HonestBackends(plan: Plan) {
    forall j :: plan.backends(j) != Bad(INVALID_GROUP_HASH)
  }

  lemma {:induction false} Answers(s: System, view: seq<nat>, name: string, hash: u64, k: u64, plan: Plan, j: nat)
    requires Ready(s, name) && ViewOk(view, |s.servers|) && j < |view|
    ensures var asked := Concluded(s, view, name, hash, k, plan).asked;
            && |asked| == |view| && asked[j].x == view[j] && asked[j].r == Start(hash, k)
            && asked[j].b == plan.backends(j) && AnsweredBy(s, asked[j], name)
  {
    StartsEnd(s, view, name, hash, k, plan);
    AnsweredThere(s, Concluded(s, view, name, hash, k, plan), view, name, hash, k, plan, j);
  }

  lemma {:induction false} AnsweredThere(s: System, net: Net, view: seq<nat>, name: string, hash: u64, k: u64,
                                         plan: Plan, j: nat)
    requires SysWf(s) && StartsAnswered(s, net, view, name, hash, k, plan) && j < |view|
    ensures AnsweredBy(s, net.asked[j], name)
  {
    assert LocalAt(s, net, j, name) && net.asked[j].st.Answered?;
    SeenAnswer(s.servers[net.asked[j].x].prov, net.sys.servers[net.asked[j].x].prov, net.asked[j], name);
  }

  lemma {:induction false} SeenAnswer(p0: Provider, p: Provider, a: Asked, name: string)
    requires Local(p0, p, a, name) && a.st.Answered?
    ensures a.seen.Some? && Wf(a.seen.value) && Kept(p0, a.seen.value)
    ensures a.st == Answered(ReplyOf(a.seen.value, name, a.r, a.b))
  {
  }

  /** The reply tells the client what became of the request: the error code of the
      guards, or that of the backend, or success. */
  lemma {:induction false} RepliesTell(s: System, a: Asked, name: string)
    requires AnsweredBy(s, a, name) && a.r.Start?
    ensures match Admit(a.seen.value, name, a.r)
            case Refused(code) => a.st == Answered(Some(code))
            case Admitted(_) =>
              match a.b
              case Good => a.st == Answered(None)
              case Bad(code) => a.st == Answered(Some(code))
  {
  }

  /** The refusals with the hash error code are those of providers with another hash. */
  lemma {:induction false} MismatchIsHash(s: System, a: Asked, name: string)
    requires AnsweredBy(s, a, name) && a.r.Start? && a.b != Bad(INVALID_GROUP_HASH)
    ensures RefusedForHash(a) <==> Mismatch(a)
  {
  }

  /** The outcome of an attempt, in terms of the providers as the requests found
      them: whether all of them accepted, and whether one had another hash. */
  lemma {:induction false} OutcomeMeans(s: System, view: seq<nat>, name: string, hash: u64, k: u64, plan: Plan)
    requires Ready(s, name) && ViewOk(view, |s.servers|) && HonestBackends(plan)
    ensures var asked := Concluded(s, view, name, hash, k, plan).asked;
            && |asked| == |view|
            && (forall j :: 0 <= j < |view| ==> asked[j].x == view[j] && AnsweredBy(s, asked[j], name))
            && (OutcomeIn(asked).Started? <==>
                  forall j :: 0 <= j < |view| ==>
                    Admit(asked[j].seen.value, name, Start(hash, k)).Admitted? && plan.backends(j).Good?)
            && (OutcomeIn(asked).HashMismatch? <==> exists j :: 0 <= j < |view| && asked[j].seen.value.hash != hash)
  {
    var asked := Concluded(s, view, name, hash, k, plan).asked;
    StartsEnd(s, view, name, hash, k, plan);
    forall j | 0 <= j < |view|
      ensures asked[j].x == view[j] && AnsweredBy(s, asked[j], name)
      ensures Accepts(asked[j]) <==>
                Admit(asked[j].seen.value, name, Start(hash, k)).Admitted? && plan.backends(j).Good?
      ensures RefusedForHash(asked[j]) <==> asked[j].seen.value.hash != hash
    {
      Answers(s, view, name, hash, k, plan, j);
      assert plan.backends(j) != Bad(INVALID_GROUP_HASH);
      MismatchIsHash(s, asked[j], name);
    }
    OutcomeByReplies(asked, hash);
  }

  lemma {:induction false} OutcomeByReplies(asked: seq<Asked>, hash: u64)
    requires forall j :: 0 <= j < |asked| ==> asked[j].seen.Some? && (RefusedForHash(asked[j]) <==>
        asked[j].seen.value.hash != hash)
    ensures OutcomeIn(asked).Started? <==> forall j :: 0 <= j < |asked| ==> Accepts(asked[j])
    ensures OutcomeIn(asked).HashMismatch? <==> exists j :: 0 <= j < |asked| && asked[j].seen.value.hash != hash
  {
  }

  /** A view and hash are those of the group s. */
  ghost predicate IsCurrent(s: System, view: seq<nat>, hash: u64) {
    && hash == ViewHash(s.servers)
    && forall j :: 0 <= j < |view| ==> IsMember(s, view[j])
  }

  /** A mismatch under a current view: an event has happened since s, or
      announcements were outstanding in s. */
  lemma {:induction false} MismatchIsNews(s: System, view: seq<nat>, name: string, hash: u64, k: u64, plan: Plan)
    requires Ready(s, name) && ViewOk(view, |s.servers|) && HonestBackends(plan) && IsCurrent(s, view, hash)
    requires OutcomeIn(Concluded(s, view, name, hash, k, plan).asked).HashMismatch?
    ensures AfterAttempt(s, view, name, hash, k, plan).budget < s.budget || Backlog(s.servers) > 0
  {
    var net := Concluded(s, view, name, hash, k, plan);
    StartsEnd(s, view, name, hash, k, plan);
    OutcomeMeans(s, view, name, hash, k, plan);
    var j :| 0 <= j < |view| && net.asked[j].seen.value.hash != hash;
    assert News(s, net.sys, net.asked[j]) && IsMember(s, view[j]);
    AbortsEnd(net, name, k, plan, |s.servers|);
  }

  ghost predicate StableOn(s: System, x: nat, name: string, k: u64) {
    && x < |s.servers| && name in s.servers[x].prov.names
    && Stable(s.servers[x].prov, name, k, s.servers[x].prov.names[name])
  }

  ghost predicate AllStable(s: System, view: seq<nat>, name: string, k: u64) {
    forall j :: 0 <= j < |view| ==> StableOn(s, view[j], name, k)
  }

  lemma {:induction false} StartedIsStable(s: System, t: System, a: Asked, name: string, k: u64)
    requires FaresAt(s, t, a, name, k, StartedThere) && Ready(t, name)
    ensures StableOn(t, a.x, name, k)
  {
    var p := t.servers[a.x].prov;
    assert Quiet(p, name);
    BusyZero(p.objs, s.servers[a.x].prov.names[name]);
  }

  /** After a successful attempt the pipeline is active at k on every provider of
      the view, which accepted it under the view's hash. */
  lemma {:induction false} SuccessIsStable(s: System, view: seq<nat>, name: string, hash: u64, k: u64, plan: Plan)
    requires Ready(s, name) && ViewOk(view, |s.servers|)
    requires OutcomeIn(Concluded(s, view, name, hash, k, plan).asked).Started?
    ensures AllStable(AfterAttempt(s, view, name, hash, k, plan), view, name, k)
  {
    var net := Concluded(s, view, name, hash, k, plan);
    AllOrNothing(s, view, name, hash, k, plan);
    forall j | 0 <= j < |view|
      ensures StableOn(net.sys, view[j], name, k)
    {
      assert Accepts(net.asked[j]);
      StartedIsStable(s, net.sys, net.asked[j], name, k);
    }
  }

  // ----- After a start was taken back -----

  /** A provider from which start(k) was taken back accepts start(k) again, as
      long as it is a member, exactly when k is not 0. */
  lemma {:induction false} AcceptedAgain(p0: Provider, p: Provider, name: string, k: u64)
    requires Fared(p0, p, name, k, TakenBack) && Inv(p) && !p.left
    ensures Admit(p, name, Start(p.hash, k)).Admitted? <==> k != 0
  {
  }

  /** Once start(0) was taken back, no start of that pipeline is ever accepted. */
  lemma {:induction false} ZeroIsLost(p0: Provider, p: Provider, name: string, es: seq<Event>, hash: u64, j: u64)
    requires Fared(p0, p, name, 0, TakenBack) && Quiet(p, name) && !p.left
    requires Legal(p, es) && |Run(p, es).objs| < TWO64
    requires name in Run(p, es).names && Run(p, es).names[name] == p.names[name]
    ensures !Admit(Run(p, es), name, Start(hash, j)).Admitted?
  {
    ExhaustedForever(p, es, p.names[name]);
  }

  // ----- Several attempts -----

  /** What failed attempts change, all in all: of the pipeline of that name the log,
      and the iteration if it was started and taken back; nothing else. */
  ghost predicate OnlyTried(p0: Provider, p: Provider, name: string, k: u64) {
    && |p.objs| == |p0.objs| && p.count == p0.count && SameNames(p0, p)
    && (forall i :: 0 <= i < |p.objs| ==> TriedAt(p0, p, i, name, k))
  }

  ghost predicate TriedAt(p0: Provider, p: Provider, i: nat, name: string, k: u64)
    requires i < |p.objs| == |p0.objs|
  {
    if name in p0.names && p0.names[name] == i then
      && p.objs[i].active == p0.objs[i].active
      && (p.objs[i].iteration == p0.objs[i].iteration || p.objs[i].iteration == Dec(k))
    else p.objs[i] == p0.objs[i]
  }

  ghost predicate AllOnlyTried(s: System, t: System, name: string, k: u64) {
    |s.servers| <= |t.servers| && forall x :: 0 <= x < |s.servers| ==>
        OnlyTried(s.servers[x].prov, t.servers[x].prov, name, k)
  }

  lemma {:induction false} FailedOnlyTries(p0: Provider, p: Provider, name: string, k: u64, fate: Fate)
    requires Fared(p0, p, name, k, fate) && !fate.StartedThere?
    ensures OnlyTried(p0, p, name, k)
  {
  }

  lemma {:induction false} TriedTwice(p0: Provider, p: Provider, q: Provider, name: string, k: u64)
    requires OnlyTried(p0, p, name, k) && OnlyTried(p, q, name, k) && Inv(p)
    ensures OnlyTried(p0, q, name, k)
  {
    forall i | 0 <= i < |q.objs|
      ensures TriedAt(p0, q, i, name, k)
    {
      assert TriedAt(p0, p, i, name, k) && TriedAt(p, q, i, name, k);
    }
  }

  lemma {:induction false} AllTriedTwice(s: System, t: System, u: System, name: string, k: u64)
    requires AllOnlyTried(s, t, name, k) && AllOnlyTried(t, u, name, k) && Sound(t)
    ensures AllOnlyTried(s, u, name, k)
  {
    forall x | 0 <= x < |s.servers|
      ensures OnlyTried(s.servers[x].prov, u.servers[x].prov, name, k)
    {
      InvOf(t, x);
      TriedTwice(s.servers[x].prov, t.servers[x].prov, u.servers[x].prov, name, k);
    }
  }

  lemma {:induction false} KeptOnlyTries(s: System, t: System, name: string, k: u64)
    requires AllKept(s, t)
    ensures AllOnlyTried(s, t, name, k)
  {
    forall x | 0 <= x < |s.servers|
      ensures OnlyTried(s.servers[x].prov, t.servers[x].prov, name, k)
    {
      FailedOnlyTries(s.servers[x].prov, t.servers[x].prov, name, k, Untouched);
    }
  }

  /** A failed attempt leaves every provider but for what it tried. */
  lemma {:induction false} FailureOnlyTries(s: System, view: seq<nat>, name: string, hash: u64, k: u64, plan: Plan)
    requires Ready(s, name) && ViewOk(view, |s.servers|)
    requires !OutcomeIn(Concluded(s, view, name, hash, k, plan).asked).Started?
    ensures AllOnlyTried(s, AfterAttempt(s, view, name, hash, k, plan), name, k)
  {
    AllOrNothing(s, view, name, hash, k, plan);
    FatesOnlyTry(s, view, Concluded(s, view, name, hash, k, plan).asked, AfterAttempt(s, view, name, hash, k,
        plan), name, k);
  }

  lemma {:induction false} FatesOnlyTry(s: System, view: seq<nat>, asked: seq<Asked>, t: System, name: string, k: u64)
    requires AllFared(s, view, asked, t, name, k, false)
    ensures AllOnlyTried(s, t, name, k)
  {
    forall x: nat | x < |s.servers|
      ensures OnlyTried(s.servers[x].prov, t.servers[x].prov, name, k)
    {
      if x in view {
        var j :| 0 <= j < |view| && view[j] == x;
        assert FaresAt(s, t, asked[j], name, k, FateOf(asked[j], name, false));
        FailedOnlyTries(s.servers[x].prov, t.servers[x].prov, name, k, FateOf(asked[j], name, false));
      } else {
        FailedOnlyTries(s.servers[x].prov, t.servers[x].prov, name, k, Untouched);
      }
    }
  }
}

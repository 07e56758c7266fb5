/** A whole iteration on a started view: stage requests from any rank pass the
    guards of the providers and reach their stores, until a cleanup on all. */
module StagedIteration {
  import opened Words
  import opened ProviderSpec
  import opened ProviderRuns
  import opened ProviderWhole
  import opened Elastic
  import opened Requests
  import opened Attempts
  import opened Staging

  /** The providers, and the stores of the backends of the view. */
  datatype State = State(s: System, stores: seq<Nested>)

  datatype StageRequest = StageRequest(key: Key, value: Block, transferred: bool)

  datatype StageReply = ByProvider(code: int) | ByBackend

  ghost predicate StateWf(st: State, view: seq<nat>) {
    && SysWf(st.s) && |view| == |st.stores| > 0
    && forall j :: 0 <= j < |view| ==> view[j] < |st.s.servers|
  }

  /** The reply to a stage request, routed over the view; None is success. */
  function ReplyTo(st: State, view: seq<nat>, hash: Staging.HashFunction, name: string,
                   r: StageRequest): Option<StageReply>
    requires StateWf(st, view)
  {
    var i := Route(hash, |view|, r.key);
    match Admit(st.s.servers[view[i]].prov, name, Request.Stage(r.key.iteration))
    case Refused(code) => Some(ByProvider(code))
    case Admitted(_) => if r.transferred && !Has(st.stores[i], r.key) then None else Some(ByBackend)
  }

  /** The provider sees the request; its backend stores the block if it may. */
  function Staged(st: State, view: seq<nat>, hash: Staging.HashFunction, name: string, r: StageRequest): (after: State)
    requires StateWf(st, view)
    ensures StateWf(after, view)
  {
    var i := Route(hash, |view|, r.key);
    State(Take(st.s, view[i], Req(name, Request.Stage(r.key.iteration))),
          if ReplyTo(st, view, hash, name, r).None?
            then StageAll(st.stores, hash, r.key, r.value, r.transferred) else st.stores)
  }

  function StagedAll(st: State, view: seq<nat>, hash: Staging.HashFunction, name: string,
                     rs: seq<StageRequest>): (after: State)
    requires StateWf(st, view)
    ensures StateWf(after, view)
    decreases |rs|
  {
    if rs == [] then st else StagedAll(Staged(st, view, hash, name, rs[0]), view, hash, name, rs[1..])
  }

  /** The requests that concern iteration k, as operations on the flat store. */
  function OpsOf(rs: seq<StageRequest>, k: u64): seq<Op>
    decreases |rs|
  {
    if rs == [] then []
    else
      (if rs[0].key.iteration == k then [StageOp(rs[0].key, rs[0].value, rs[0].transferred)]
          else []) + OpsOf(rs[1..], k)
  }

  lemma {:induction false} StagingKeepsStable(s: System, x: nat, name: string, k: u64, j: u64, view: seq<nat>)
    requires SysWf(s) && AllStable(s, view, name, k) && x < |s.servers|
    ensures AllStable(Take(s, x, Req(name, Request.Stage(j))), view, name, k)
  {
    forall n | 0 <= n < |view|
      ensures StableOn(Take(s, x, Req(name, Request.Stage(j))), view[n], name, k)
    {
      assert StableOn(s, view[n], name, k);
    }
  }

  /** The request reaches the backend of the provider it is routed to, if it is for
      iteration k, and changes nothing else on any provider. */
  ghost predicate OnlyRoutedSees(st: State, after: State, view: seq<nat>, hash: Staging.HashFunction, name: string,
                                 k: u64, r: StageRequest)
    requires StateWf(st, view) && AllStable(st.s, view, name, k)
  {
    var x := view[Route(hash, |view|, r.key)];
    var p := st.s.servers[x].prov;
    var o := p.objs[p.names[name]];
    after.s == if r.key.iteration != k then st.s
               else st.s.(servers := st.s.servers[x := st.s.servers[x].(prov :=
                 p.(objs := p.objs[p.names[name] := o.(log := o.log + [StageCall(k)])]))])
  }

  /** While the view is started at k, a stage request from any rank succeeds
      exactly when it is for iteration k, the data came through and the flat
      store has no block of that key; the view stays started, and the servers
      stay that flat store. */
  lemma {:induction false} StageDuringIteration(st: State, view: seq<nat>, flat: Flat, hash: Staging.HashFunction,
                                                name: string, k: u64, r: StageRequest)
    requires StateWf(st, view) && AllStable(st.s, view, name, k) && Refines(st.stores, flat, hash)
    ensures ReplyTo(st, view, hash, name, r) ==
            if r.key.iteration != k then Some(ByProvider(INVALID_ITERATION))
            else if r.transferred && r.key !in flat then None
            else Some(ByBackend)
    ensures var after := Staged(st, view, hash, name, r);
            && AllStable(after.s, view, name, k)
            && Refines(after.stores, DoFlatSeq(flat, OpsOf([r], k)), hash)
            && OnlyRoutedSees(st, after, view, hash, name, k, r)
  {
    var i := Route(hash, |view|, r.key);
    assert StableOn(st.s, view[i], name, k);
    StagingKeepsStable(st.s, view[i], name, k, r.key.iteration, view);
    OpRefines(st.stores, flat, hash, StageOp(r.key, r.value, r.transferred));
    assert [r][1..] == [] && OpsOf([], k) == [];
    if r.key.iteration == k {
      var op := StageOp(r.key, r.value, r.transferred);
      assert OpsOf([r], k) == [op] && [op][1..] == [];
    } else {
      assert OpsOf([r], k) == [];
    }
  }

  lemma {:induction false} FlatConcat(flat: Flat, a: seq<Op>, b: seq<Op>)
    ensures DoFlatSeq(flat, a + b) == DoFlatSeq(DoFlatSeq(flat, a), b)
    decreases |a|
  {
    if a == [] {
      assert a + b == b;
    } else {
      assert (a + b)[1..] == a[1..] + b;
      FlatConcat(DoFlat(flat, a[0]), a[1..], b);
    }
  }

  lemma {:induction false} OpsCons(r: StageRequest, rs: seq<StageRequest>, k: u64)
    ensures OpsOf([r] + rs, k) == OpsOf([r], k) + OpsOf(rs, k)
  {
    assert ([r] + rs)[1..] == rs && [r][1..] == [];
    assert OpsOf([], k) == [];
  }

  /** Any number of stage requests, from any ranks: the servers together are the
      flat store of those for iteration k. */
  lemma {:induction false} StagesRefine(st: State, view: seq<nat>, flat: Flat, hash: Staging.HashFunction,
                                        name: string, k: u64, rs: seq<StageRequest>)
    requires StateWf(st, view) && AllStable(st.s, view, name, k) && Refines(st.stores, flat, hash)
    ensures var after := StagedAll(st, view, hash, name, rs);
            AllStable(after.s, view, name, k) && Refines(after.stores, DoFlatSeq(flat, OpsOf(rs, k)), hash)
    decreases |rs|
  {
    if rs != [] {
      StageDuringIteration(st, view, flat, hash, name, k, rs[0]);
      StagesRefine(Staged(st, view, hash, name, rs[0]), view, DoFlatSeq(flat, OpsOf([rs[0]], k)), hash, name, k,
          rs[1..]);
      assert rs == [rs[0]] + rs[1..];
      OpsCons(rs[0], rs[1..], k);
      FlatConcat(flat, OpsOf([rs[0]], k), OpsOf(rs[1..], k));
    }
  }

  // ----- Cleanup on the whole view -----

  /** All providers of the view, each of which is there once, clean up iteration k. */
  function CleanedUp(st: State, view: seq<nat>, name: string, k: u64): (after: State)
    requires StateWf(st, view)
    ensures StateWf(after, view)
  {
    State(st.s.(servers := seq(|st.s.servers|, x requires 0 <= x < |st.s.servers| =>
            if x in view then CleanedAt(st.s.servers[x], name, k) else st.s.servers[x])),
          CleanupAll(st.stores, k))
  }

  function CleanedAt(v: Server, name: string, k: u64): Server
    requires Wf(v.prov)
  {
    v.(prov := WholeCleanup(v.prov, name, k, true))
  }

  /** The pipeline of that name is installed and not active. */
  ghost predicate ClosedOn(s: System, x: nat, name: string) {
    && x < |s.servers|
    && var p := s.servers[x].prov;
       name in p.names && p.names[name] < |p.objs| && !p.objs[p.names[name]].active
  }

  lemma {:induction false} CleanupCloses(p: Provider, name: string, k: u64, i: nat)
    requires Wf(p) && Stable(p, name, k, i)
    ensures var q := WholeCleanup(p, name, k, true);
            name in q.names && q.names[name] < |q.objs| && !q.objs[q.names[name]].active
  {
  }

  lemma {:induction false} ViewCleansUp(st: State, view: seq<nat>, name: string, k: u64, j: nat)
    requires StateWf(st, view) && AllStable(st.s, view, name, k) && j < |view|
    ensures var after := CleanedUp(st, view, name, k);
            ClosedOn(after.s, view[j], name) && after.stores[j] == st.stores[j] - {k}
  {
    var p := st.s.servers[view[j]].prov;
    assert StableOn(st.s, view[j], name, k) && view[j] in view;
    CleanupCloses(p, name, k, p.names[name]);
  }

  /** Between a start that ended well and a cleanup, each block staged for k is on
      exactly the server it is routed to, and the first of its key is kept. */
  lemma {:induction false} StagedInIteration(st: State, view: seq<nat>, flat: Flat, hash: Staging.HashFunction,
                                             name: string, k: u64, rs: seq<StageRequest>, key: Key, j: nat)
    requires StateWf(st, view) && AllStable(st.s, view, name, k) && Refines(st.stores, flat, hash)
    requires key !in flat && j < |view|
    ensures var staged, ops := StagedAll(st, view, hash, name, rs), OpsOf(rs, k);
            var first := FirstFor(ops, key);
            && AllStable(staged.s, view, name, k)
            && (Has(staged.stores[j], key) <==> first < |ops| && j == Route(hash, |view|, key))
            && (Has(staged.stores[j], key) ==> Lookup(staged.stores[j], key) == ops[first].value)
  {
    var staged, ops := StagedAll(st, view, hash, name, rs), OpsOf(rs, k);
    StagesRefine(st, view, flat, hash, name, k, rs);
    OnlyStages(rs, k);
    FirstStageWins(flat, ops, key);
    assert Holds(staged.stores, DoFlatSeq(flat, ops), hash, j, key);
  }

  lemma {:induction false} OnlyStages(rs: seq<StageRequest>, k: u64)
    ensures forall i :: 0 <= i < |OpsOf(rs, k)| ==> OpsOf(rs, k)[i].StageOp?
    decreases |rs|
  {
    if rs != [] { OnlyStages(rs[1..], k); }
  }

  /** After the cleanup on the whole view no server holds a block of k, every other
      block is where it was, and every later stage request is refused. */
  lemma {:induction false} CleanupEndsIteration(st: State, view: seq<nat>, hash: Staging.HashFunction, name: string,
                                                k: u64,
                                                key: Key, j: nat, r: StageRequest)
    requires StateWf(st, view) && AllStable(st.s, view, name, k) && j < |view|
    ensures var cleaned := CleanedUp(st, view, name, k);
            && (Has(cleaned.stores[j], key) <==> Has(st.stores[j], key) && key.iteration != k)
            && (Has(cleaned.stores[j], key) ==> Lookup(cleaned.stores[j], key) == Lookup(st.stores[j], key))
            && ReplyTo(cleaned, view, hash, name, r) == Some(ByProvider(PIPELINE_NOT_ACTIVE))
            && |cleaned.s.servers| == |st.s.servers|
            && forall x: nat :: x < |st.s.servers| && x !in view ==> cleaned.s.servers[x] == st.s.servers[x]
  {
    ViewCleansUp(st, view, name, k, j);
    ViewCleansUp(st, view, name, k, Route(hash, |view|, r.key));
    ClosedRefuses(CleanedUp(st, view, name, k), view, hash, name, r);
    WithoutIteration(st.stores[j], k, key);
    OnlyViewCleansUp(st, view, name, k);
  }

  lemma {:induction false} WithoutIteration(n: Nested, k: u64, key: Key)
    ensures Has(n - {k}, key) <==> Has(n, key) && key.iteration != k
    ensures Has(n - {k}, key) ==> Lookup(n - {k}, key) == Lookup(n, key)
  {
  }

  lemma {:induction false} OnlyViewCleansUp(st: State, view: seq<nat>, name: string, k: u64)
    requires StateWf(st, view)
    ensures var cleaned := CleanedUp(st, view, name, k);
            && |cleaned.s.servers| == |st.s.servers|
            && forall x: nat :: x < |st.s.servers| && x !in view ==> cleaned.s.servers[x] == st.s.servers[x]
  {
  }

  lemma {:induction false} ClosedRefuses(st: State, view: seq<nat>, hash: Staging.HashFunction, name: string,
                                         r: StageRequest)
    requires StateWf(st, view) && ClosedOn(st.s, view[Route(hash, |view|, r.key)], name)
    ensures ReplyTo(st, view, hash, name, r) == Some(ByProvider(PIPELINE_NOT_ACTIVE))
  {
  }
}

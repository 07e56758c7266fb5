/** start on rank 0: attempts on every provider of the view, and the retry after
    the view was found to be out of date. */
module DistributedStart {
  import opened Words
  import opened GroupHash
  import opened ProviderSpec
  import opened ProviderRuns
  import opened ProviderWhole
  import opened Elastic
  import opened Folds
  import opened Requests
  import opened FanOuts
  import opened Attempts
  import opened Packing
  import L = Lockstep
  import S = Staging

  // ----- The view of the group -----

  /** The providers in the group, in rank order. */
  function ViewOf(servers: seq<Server>): seq<nat> {
    if servers == [] then [] else
      var last := |servers| - 1;
      ViewOf(servers[..last]) + if servers[last].prov.left then [] else [last]
  }

  lemma {:induction false} ViewIsMembership(servers: seq<Server>)
    ensures ViewOk(ViewOf(servers), |servers|)
    ensures forall x: nat :: x < |servers| ==> (x in ViewOf(servers) <==> !servers[x].prov.left)
  {
    if servers != [] {
      ViewIsMembership(servers[..|servers| - 1]);
    }
  }

  lemma {:induction false} ViewInOrder(servers: seq<Server>)
    ensures Increasing(ViewOf(servers))
  {
    if servers != [] {
      ViewInOrder(servers[..|servers| - 1]);
      ViewIsMembership(servers[..|servers| - 1]);
    }
  }

  /** In rank order. */
  ghost predicate Increasing(view: seq<nat>) {
    forall a, b :: 0 <= a < b < |view| ==> view[a] < view[b]
  }

  /** Every server has an address that fits into a slot. */
  type Addressing = f: nat -> string | forall x :: Fits(f(x)) ghost witness (x: nat) => ""

  /** The addresses of the providers of a view, in its order. */
  ghost predicate AreAddresses(addrs: seq<string>, f: Addressing, view: seq<nat>) {
    |addrs| == |view| && forall j :: 0 <= j < |view| ==> addrs[j] == f(view[j])
  }

  function AddressesOf(f: Addressing, view: seq<nat>): (addrs: L.AddressList)
    ensures |addrs| == |view| && AllFit(addrs)
  {
    var addrs := seq(|view|, j requires 0 <= j < |view| => f(view[j]));
    RoundTrip(addrs);
    addrs
  }

  // ----- Between two attempts -----

  /** The first provider with an announcement outstanding, or |servers|. */
  function FirstBehind(servers: seq<Server>): (i: nat)
    ensures i <= |servers|
    ensures i < |servers| ==> servers[i].inbox != []
  {
    if servers == [] then 0
    else
      var i, last := FirstBehind(servers[..|servers| - 1]), |servers| - 1;
      if i < last || servers[last].inbox != [] then i else |servers|
  }

  lemma {:induction false} NoneBehind(servers: seq<Server>)
    requires FirstBehind(servers) == |servers|
    ensures Backlog(servers) == 0
  {
    if servers != [] {
      NoneBehind(servers[..|servers| - 1]);
    }
  }

  /** The membership moves of a list, those that are not possible left out. */
  function Moved(s: System, moves: seq<Move>): (t: System)
    requires SysWf(s)
    ensures SysWf(t)
  {
    if moves == [] then s
    else
      var t, m := Moved(s, moves[..|moves| - 1]), moves[|moves| - 1];
      if MembershipMove(m) && Possible(t, m) then Step(t, m) else t
  }

  /** Whatever run of membership moves the group can make, it can make then. */
  lemma {:induction false} AnyMovesHappen(s: System, ms: seq<Move>, n: nat)
    requires SysWf(s) && LegalMoves(s, ms) && OfMembership(ms) && n <= |ms|
    ensures LegalMoves(s, ms[..n]) && Moved(s, ms[..n]) == Elastic.Play(s, ms[..n])
    decreases n
  {
    if n > 0 {
      AnyMovesHappen(s, ms, n - 1);
      PlaySnoc(s, ms, n - 1);
      assert ms[..n][..n - 1] == ms[..n - 1];
    } else {
      assert ms[..0] == [];
    }
  }

  /** The n-th move of a run. */
  lemma {:induction false} PlaySnoc(s: System, ms: seq<Move>, n: nat)
    requires SysWf(s) && LegalMoves(s, ms) && n < |ms|
    ensures LegalMoves(s, ms[..n]) && LegalMoves(s, ms[..n + 1])
    ensures Possible(Elastic.Play(s, ms[..n]), ms[n])
    ensures Elastic.Play(s, ms[..n + 1]) == Step(Elastic.Play(s, ms[..n]), ms[n])
    decreases n
  {
    if n == 0 {
      assert ms[..0] == [] && ms[..1][1..] == [];
    } else {
      PlaySnoc(Step(s, ms[0]), ms[1..], n - 1);
      assert ms[..n][1..] == ms[1..][..n - 1];
      assert ms[..n + 1][1..] == ms[1..][..n];
    }
  }

  lemma {:induction false} MovedKeeps(s: System, moves: seq<Move>)
    requires Sound(s)
    ensures Sound(Moved(s, moves)) && Calm(s, Moved(s, moves)) && AllKept(s, Moved(s, moves))
  {
    if moves != [] {
      var t, m := Moved(s, moves[..|moves| - 1]), moves[|moves| - 1];
      MovedKeeps(s, moves[..|moves| - 1]);
      if MembershipMove(m) && Possible(t, m) {
        MoveKeeps(t, m);
        CalmTrans(s, t, Step(t, m));
        AllKeptTrans(s, t, Step(t, m));
      }
    }
  }

  lemma {:induction false} AllKeptTrans(s: System, t: System, u: System)
    requires AllKept(s, t) && AllKept(t, u)
    ensures AllKept(s, u)
  {
    forall i | 0 <= i < |s.servers|
      ensures Kept(s.servers[i].prov, u.servers[i].prov)
    {
      KeptTrans(s.servers[i].prov, t.servers[i].prov, u.servers[i].prov);
    }
    forall i | |s.servers| <= i < |u.servers|
      ensures u.servers[i].prov.objs == []
    {
      if i < |t.servers| { assert Kept(t.servers[i].prov, u.servers[i].prov); }
    }
  }

  /** Any membership moves; and if they left the measure as it was, an announcement
      that is outstanding arrives. */
  function Gapped(s: System, moves: seq<Move>): (t: System)
    requires SysWf(s)
    ensures SysWf(t)
  {
    var t := Moved(s, moves);
    var m := Deliver(FirstBehind(t.servers), 0);
    if t.budget == s.budget && Backlog(t.servers) == Backlog(s.servers) && Possible(t, m) then Step(t, m) else t
  }

  lemma {:induction false} GappedKeeps(s: System, moves: seq<Move>)
    requires Sound(s)
    ensures Sound(Gapped(s, moves)) && Calm(s, Gapped(s, moves)) && AllKept(s, Gapped(s, moves))
    ensures Backlog(s.servers) > 0 ==> Less(Gapped(s, moves), s)
  {
    var t := Moved(s, moves);
    var i := FirstBehind(t.servers);
    MovedKeeps(s, moves);
    if t.budget == s.budget && Backlog(t.servers) == Backlog(s.servers) {
      if i < |t.servers| {
        OneDelivered(s, t, i);
      } else {
        NoneBehind(t.servers);
      }
    }
  }

  lemma {:induction false} OneDelivered(s: System, t: System, i: nat)
    requires Sound(t) && Calm(s, t) && AllKept(s, t)
    requires t.budget == s.budget && Backlog(t.servers) == Backlog(s.servers)
    requires i < |t.servers| && t.servers[i].inbox != []
    ensures Possible(t, Deliver(i, 0))
    ensures var u := Step(t, Deliver(i, 0)); Sound(u) && Calm(s, u) && AllKept(s, u) && Less(u, s)
  {
    assert ServerOk(t.servers[i], ViewHash(t.servers), Group(t.servers));
    MoveKeeps(t, Deliver(i, 0));
    CalmTrans(s, t, Step(t, Deliver(i, 0)));
    AllKeptTrans(s, t, Step(t, Deliver(i, 0)));
  }

  lemma {:induction false} KeptReady(s: System, t: System, name: string)
    requires Ready(s, name) && Sound(t) && AllKept(s, t)
    ensures Ready(t, name)
  {
    forall i | 0 <= i < |t.servers|
      ensures Quiet(t.servers[i].prov, name)
    {
      InvOf(t, i);
      if i < |s.servers| {
        assert Quiet(s.servers[i].prov, name);
        KeptQuiet(s.servers[i].prov, t.servers[i].prov, name);
      }
    }
  }

  // ----- The whole start -----

  /** How rank 0 finds the group when it loads a view. */
  datatype Reading = NoGroup | NoAddress | Readable

  /** What one turn of the loop meets: the group file, the attempt, the time after it. */
  datatype Turn = Turn(reading: Reading, plan: Plan, gap: seq<Move>)

  type WfSystem = s: System | SysWf(s) witness System([], 0)

  /** An attempt: the group it was made in, and the view and hash it was made with. */
  datatype Try = Try(at: WfSystem, view: seq<nat>, hash: u64)

  ghost predicate TryOk(t: Try, name: string) {
    Ready(t.at, name) && ViewOk(t.view, |t.at.servers|)
  }

  function OutcomeOf(t: Try, name: string, k: u64, turn: Turn): L.Outcome {
    OutcomeIn(Concluded(t.at, t.view, name, t.hash, k, turn.plan).asked)
  }

  /** The group when the attempt, and the time after it, are over. */
  function AfterTurn(t: Try, name: string, k: u64, turn: Turn): WfSystem {
    var s := AfterAttempt(t.at, t.view, name, t.hash, k, turn.plan);
    if OutcomeOf(t, name, k, turn).HashMismatch? then Gapped(s, turn.gap) else s
  }

  /** The view, with its hash, that rank 0 loads in s. */
  function Fresh(s: WfSystem): Try {
    Try(s, ViewOf(s.servers), ViewHash(s.servers))
  }

  /** The attempts so far: each but the first follows a hash mismatch, and is made
      with the view that the group then has. */
  ghost predicate History(tries: seq<Try>, name: string, k: u64, turns: nat -> Turn)
    decreases |tries|
  {
    && tries != []
    && TryOk(tries[|tries| - 1], name)
    && (|tries| > 1 ==>
          && History(tries[..|tries| - 1], name, k, turns)
          && Succeeds(tries[|tries| - 2], tries[|tries| - 1], name, k, turns(|tries| - 2), turns(|tries| - 1)))
  }

  ghost predicate Succeeds(t: Try, u: Try, name: string, k: u64, turn: Turn, next: Turn) {
    && OutcomeOf(t, name, k, turn).HashMismatch?
    && u == Fresh(AfterTurn(t, name, k, turn)) && next.reading.Readable?
  }

  function LoadAt(f: Addressing, view: seq<nat>): L.Load {
    L.Loaded(AddressesOf(f, view))
  }

  function LoadFailure(reading: Reading): L.Load {
    if reading.NoGroup? then L.GroupUnreadable else L.AddressUnresolved
  }

  /** The retries in the record of the collective calls. */
  function RetriesOf(tries: seq<Try>, f: Addressing, name: string, k: u64, turns: nat -> Turn): seq<L.Retry> {
    if |tries| <= 1 then []
    else
      var last := |tries| - 1;
      RetriesOf(tries[..last], f, name, k, turns) +
      [L.Retry(LoadAt(f, tries[last].view), OutcomeOf(tries[last], name, k, turns(last)))]
  }

  lemma {:induction false} FreshOk(s: WfSystem, name: string)
    requires Ready(s, name)
    ensures TryOk(Fresh(s), name) && IsCurrent(s, Fresh(s).view, Fresh(s).hash) && Increasing(Fresh(s).view)
    ensures forall x: nat :: x in Fresh(s).view <==> IsMember(s, x)
  {
    ViewIsMembership(s.servers);
    ViewInOrder(s.servers);
    forall x: nat
      ensures x in Fresh(s).view <==> IsMember(s, x)
    {
      if x in Fresh(s).view {
        var j :| 0 <= j < |Fresh(s).view| && Fresh(s).view[j] == x;
      }
    }
  }

  /** What an attempt, and the time after it, do to the group. */
  lemma {:induction false} AfterTry(t: Try, name: string, k: u64, turn: Turn)
    requires TryOk(t, name)
    ensures var s := AfterTurn(t, name, k, turn); Ready(s, name) && Calm(t.at, s)
    ensures !OutcomeOf(t, name, k, turn).Started? ==> AllOnlyTried(t.at, AfterTurn(t, name, k, turn), name, k)
    ensures OutcomeOf(t, name, k, turn).Started? ==> AllStable(AfterTurn(t, name, k, turn), t.view, name, k)
  {
    var s := AfterAttempt(t.at, t.view, name, t.hash, k, turn.plan);
    AllOrNothing(t.at, t.view, name, t.hash, k, turn.plan);
    if OutcomeOf(t, name, k, turn).Started? {
      SuccessIsStable(t.at, t.view, name, t.hash, k, turn.plan);
    } else {
      FailureOnlyTries(t.at, t.view, name, t.hash, k, turn.plan);
      if OutcomeOf(t, name, k, turn).HashMismatch? {
        AfterGap(t.at, s, turn.gap, name, k);
      }
    }
  }

  lemma {:induction false} AfterGap(s0: System, s: System, gap: seq<Move>, name: string, k: u64)
    requires Ready(s, name) && Calm(s0, s) && AllOnlyTried(s0, s, name, k)
    ensures Ready(Gapped(s, gap), name) && Calm(s0, Gapped(s, gap)) && AllOnlyTried(s0, Gapped(s, gap), name, k)
  {
    GappedKeeps(s, gap);
    KeptReady(s, Gapped(s, gap), name);
    CalmTrans(s0, s, Gapped(s, gap));
    KeptOnlyTries(s, Gapped(s, gap), name, k);
    AllTriedTwice(s0, s, Gapped(s, gap), name, k);
  }

  /** A mismatch under a view just loaded: an event has happened, or an outstanding
      announcement has arrived. */
  lemma {:induction false} RetryIsLess(s: WfSystem, name: string, k: u64, turn: Turn)
    requires Ready(s, name) && HonestBackends(turn.plan)
    requires OutcomeOf(Fresh(s), name, k, turn).HashMismatch?
    ensures Less(AfterTurn(Fresh(s), name, k, turn), s)
  {
    var t := Fresh(s);
    var u := AfterAttempt(s, t.view, name, t.hash, k, turn.plan);
    FreshOk(s, name);
    MismatchIsNews(s, t.view, name, t.hash, k, turn.plan);
    AllOrNothing(s, t.view, name, t.hash, k, turn.plan);
    LessAfterGap(s, u, turn.gap);
  }

  lemma {:induction false} LessAfterGap(s: System, u: System, gap: seq<Move>)
    requires Sound(u) && Calm(s, u) && (u.budget < s.budget || Backlog(s.servers) > 0)
    ensures Less(Gapped(u, gap), s)
  {
    GappedKeeps(u, gap);
  }

  // ----- The record of attempts and the record of collective calls -----

  ghost predicate Recorded(first: L.Outcome, retries: seq<L.Retry>, outcome: L.Outcome) {
    if outcome.HashMismatch? then L.Pending(first, retries)
    else
      && L.Complete(first, retries) && L.RootEnding(first, retries) == L.Returned
      && L.NoSilentFailure(first, retries) == outcome.Started?
  }

  lemma {:induction false} FirstRecord(outcome: L.Outcome)
    ensures Recorded(outcome, [], outcome)
    ensures L.RootOps(outcome, []) == [L.Barrier, L.Bcast(L.SIZEOF_BOOL, L.Flag(outcome.Started?))]
  {
  }

  lemma {:induction false} Snoc(a: seq<L.Collective>, b: seq<L.Collective>, c: seq<L.Collective>)
    ensures (a + b) + c == a + (b + c)
  {
  }

  /** One more retry extends both records. */
  lemma {:induction false} NextRecord(first: L.Outcome, retries: seq<L.Retry>, r: L.Retry)
    requires L.Pending(first, retries)
    ensures L.RootOps(first, retries + [r]) == L.RootOps(first, retries) + L.RetryOps(r)
    ensures r.load.Loaded? ==> Recorded(first, retries + [r], r.outcome)
    ensures !r.load.Loaded? ==> L.Complete(first, retries + [r]) && L.RootEnding(first, retries + [r]) == L.Threw
  {
    L.OneMoreAttempt(first, retries, r);
    Snoc([L.Barrier], L.AttemptOps(first, retries), L.RetryOps(r));
    if r.load.Loaded? {
      LoadedRecord(first, retries, r);
    } else {
      L.LastAttempt(first, retries, r);
    }
  }

  lemma {:induction false} LoadedRecord(first: L.Outcome, retries: seq<L.Retry>, r: L.Retry)
    requires L.Pending(first, retries) && r.load.Loaded?
    ensures Recorded(first, retries + [r], r.outcome)
  {
    var more := retries + [r];
    assert more[|retries|] == r;
    assert forall i :: 0 <= i < |retries| ==> more[i] == retries[i];
    if !r.outcome.HashMismatch? {
      L.LastAttempt(first, retries, r);
    }
  }

  lemma {:induction false} HistoryNext(tries: seq<Try>, u: Try, name: string, k: u64, turns: nat -> Turn)
    requires History(tries, name, k, turns) && TryOk(u, name)
    requires Succeeds(tries[|tries| - 1], u, name, k, turns(|tries| - 1), turns(|tries|))
    ensures History(tries + [u], name, k, turns)
  {
    assert (tries + [u])[..|tries|] == tries;
  }

  lemma {:induction false} RetriesNext(tries: seq<Try>, u: Try, f: Addressing, name: string, k: u64, turns: nat -> Turn)
    requires tries != []
    ensures RetriesOf(tries + [u], f, name, k, turns) ==
            RetriesOf(tries, f, name, k, turns) + [L.Retry(LoadAt(f, u.view), OutcomeOf(u, name, k, turns(|tries|)))]
  {
    RetriesLast(tries + [u], f, name, k, turns);
    assert (tries + [u])[..|tries|] == tries && (tries + [u])[|tries|] == u;
  }

  lemma {:induction false} RetriesLast(tries: seq<Try>, f: Addressing, name: string, k: u64, turns: nat -> Turn)
    requires |tries| > 1
    ensures var last := |tries| - 1;
            RetriesOf(tries, f, name, k, turns) ==
            RetriesOf(tries[..last], f, name, k, turns) +
            [L.Retry(LoadAt(f, tries[last].view), OutcomeOf(tries[last], name, k, turns(last)))]
  {
  }

  /** The attempts so far were `tries`, and the record of collective calls has these
      retries. */
  ghost predicate OnRecord(tries: seq<Try>, retries: seq<L.Retry>, ops: seq<L.Collective>, ops0: seq<L.Collective>,
                       f: Addressing, name: string, k: u64, turns: nat -> Turn) {
    && History(tries, name, k, turns)
    && retries == RetriesOf(tries, f, name, k, turns)
    && Recorded(FirstOutcome(tries, name, k, turns), retries, LastOutcome(tries, name, k, turns))
    && ops == ops0 + L.RootOps(FirstOutcome(tries, name, k, turns), retries)
  }

  function FirstOutcome(tries: seq<Try>, name: string, k: u64, turns: nat -> Turn): L.Outcome
    requires tries != []
  {
    OutcomeOf(tries[0], name, k, turns(0))
  }

  function LastOutcome(tries: seq<Try>, name: string, k: u64, turns: nat -> Turn): L.Outcome
    requires tries != []
  {
    OutcomeOf(tries[|tries| - 1], name, k, turns(|tries| - 1))
  }

  /** The group after all these attempts. */
  function AfterAll(tries: seq<Try>, name: string, k: u64, turns: nat -> Turn): WfSystem
    requires tries != []
  {
    AfterTurn(tries[|tries| - 1], name, k, turns(|tries| - 1))
  }

  lemma {:induction false} FirstTry(t: Try, ops0: seq<L.Collective>, f: Addressing, name: string, k: u64,
                                    turns: nat -> Turn)
    requires TryOk(t, name)
    ensures var flag := [L.Bcast(L.SIZEOF_BOOL, L.Flag(OutcomeOf(t, name, k, turns(0)).Started?))];
            OnRecord([t], [], ops0 + [L.Barrier] + flag, ops0, f, name, k, turns)
  {
    var outcome := OutcomeOf(t, name, k, turns(0));
    FirstRecord(outcome);
    Snoc(ops0, [L.Barrier], [L.Bcast(L.SIZEOF_BOOL, L.Flag(outcome.Started?))]);
  }

  lemma {:induction false} OneMoreTry(tries: seq<Try>, retries: seq<L.Retry>, ops: seq<L.Collective>,
                                      ops0: seq<L.Collective>,
                                      f: Addressing, name: string, k: u64, turns: nat -> Turn)
    requires OnRecord(tries, retries, ops, ops0, f, name, k, turns) && LastOutcome(tries, name, k, turns).HashMismatch?
    requires turns(|tries|).reading.Readable?
    ensures var t := Fresh(AfterAll(tries, name, k, turns));
            var r := L.Retry(LoadAt(f, t.view), OutcomeOf(t, name, k, turns(|tries|)));
            && TryOk(t, name)
            && OnRecord(tries + [t], retries + [r], ops + L.RetryOps(r), ops0, f, name, k, turns)
  {
    var first, here := FirstOutcome(tries, name, k, turns), AfterAll(tries, name, k, turns);
    var t := Fresh(here);
    var r := L.Retry(LoadAt(f, t.view), OutcomeOf(t, name, k, turns(|tries|)));
    AfterTry(tries[|tries| - 1], name, k, turns(|tries| - 1));
    FreshOk(here, name);
    HistoryNext(tries, t, name, k, turns);
    RetriesNext(tries, t, f, name, k, turns);
    NextRecord(first, retries, r);
    NowLast(tries, t, name, k, turns);
    StillFirst(tries, t, name, k, turns);
    Snoc(ops0, L.RootOps(first, retries), L.RetryOps(r));
  }

  /** All that a retry with a view just loaded comes to. */
  lemma {:induction false} RetryOnRecord(tries: seq<Try>, retries: seq<L.Retry>, ops: seq<L.Collective>,
                                         ops0: seq<L.Collective>,
                                         f: Addressing, name: string, k: u64, turns: nat -> Turn)
    requires OnRecord(tries, retries, ops, ops0, f, name, k, turns) && LastOutcome(tries, name, k, turns).HashMismatch?
    requires turns(|tries|).reading.Readable? && HonestBackends(turns(|tries|).plan)
    ensures var here := AfterAll(tries, name, k, turns);
            var t, turn := Fresh(here), turns(|tries|);
            var r, tries' := L.Retry(LoadAt(f, t.view), OutcomeOf(t, name, k, turn)), tries + [t];
            && OnRecord(tries', retries + [r], ops + L.RetryOps(r), ops0, f, name, k, turns)
            && LastOutcome(tries', name, k, turns) == OutcomeOf(t, name, k, turn)
            && AfterAll(tries', name, k, turns) == AfterTurn(t, name, k, turn)
            && (OutcomeOf(t, name, k, turn).HashMismatch? ==> Less(AfterTurn(t, name, k, turn), here))
  {
    OneMoreTry(tries, retries, ops, ops0, f, name, k, turns);
    NowLast(tries, Fresh(AfterAll(tries, name, k, turns)), name, k, turns);
    RetryLowers(tries, name, k, turns);
  }

  lemma {:induction false} StillFirst(tries: seq<Try>, t: Try, name: string, k: u64, turns: nat -> Turn)
    requires tries != []
    ensures FirstOutcome(tries + [t], name, k, turns) == FirstOutcome(tries, name, k, turns)
  {
  }

  lemma {:induction false} NowLast(tries: seq<Try>, t: Try, name: string, k: u64, turns: nat -> Turn)
    ensures LastOutcome(tries + [t], name, k, turns) == OutcomeOf(t, name, k, turns(|tries|))
    ensures AfterAll(tries + [t], name, k, turns) == AfterTurn(t, name, k, turns(|tries|))
  {
  }

  lemma {:induction false} ReadyAgain(tries: seq<Try>, name: string, k: u64, turns: nat -> Turn)
    requires History(tries, name, k, turns)
    ensures Ready(AfterAll(tries, name, k, turns), name)
  {
    AfterTry(tries[|tries| - 1], name, k, turns(|tries| - 1));
  }

  lemma {:induction false} LastTryFails(tries: seq<Try>, retries: seq<L.Retry>, ops: seq<L.Collective>,
                                        ops0: seq<L.Collective>,
                                        f: Addressing, name: string, k: u64, turns: nat -> Turn, r: L.Retry)
    requires OnRecord(tries, retries, ops, ops0, f, name, k, turns) && LastOutcome(tries, name, k, turns).HashMismatch?
    requires !r.load.Loaded?
    ensures var first := FirstOutcome(tries, name, k, turns);
            && ops + L.RetryOps(r) == ops0 + L.RootOps(first, retries + [r])
            && L.Complete(first, retries + [r]) && L.RootEnding(first, retries + [r]) == L.Threw
  {
    var first := FirstOutcome(tries, name, k, turns);
    NextRecord(first, retries, r);
    Snoc(ops0, L.RootOps(first, retries), L.RetryOps(r));
  }

  /** Each retry lowers the measure. */
  lemma {:induction false} RetryLowers(tries: seq<Try>, name: string, k: u64, turns: nat -> Turn)
    requires History(tries, name, k, turns) && HonestBackends(turns(|tries|).plan)
    ensures var here := AfterAll(tries, name, k, turns);
            OutcomeOf(Fresh(here), name, k, turns(|tries|)).HashMismatch? ==>
              Less(AfterTurn(Fresh(here), name, k, turns(|tries|)), here)
  {
    var here := AfterAll(tries, name, k, turns);
    AfterTry(tries[|tries| - 1], name, k, turns(|tries| - 1));
    if OutcomeOf(Fresh(here), name, k, turns(|tries|)).HashMismatch? {
      RetryIsLess(here, name, k, turns(|tries|));
    }
  }

  // ----- What a start comes to -----

  /** All that was there before is as it was, but for what was tried. */
  lemma {:induction false} BeforeLastTry(tries: seq<Try>, name: string, k: u64, turns: nat -> Turn)
    requires History(tries, name, k, turns)
    ensures AllOnlyTried(tries[0].at, tries[|tries| - 1].at, name, k)
    decreases |tries|
  {
    if |tries| == 1 {
      SameOnlyTried(tries[0].at, name, k);
    } else {
      HistoryLast(tries, name, k, turns);
      BeforeLastTry(tries[..|tries| - 1], name, k, turns);
      BeforeOneMore(tries, name, k, turns(|tries| - 2));
    }
  }

  lemma {:induction false} BeforeOneMore(tries: seq<Try>, name: string, k: u64, turn: Turn)
    requires |tries| > 1 && FailedThen(tries[|tries| - 2], tries[|tries| - 1], name, k, turn)
    requires var front := tries[..|tries| - 1]; AllOnlyTried(front[0].at, front[|front| - 1].at, name, k)
    ensures AllOnlyTried(tries[0].at, tries[|tries| - 1].at, name, k)
  {
    OnlyTriedThen(tries[0].at, tries[|tries| - 2], tries[|tries| - 1], name, k, turn);
  }

  lemma {:induction false} HistoryLast(tries: seq<Try>, name: string, k: u64, turns: nat -> Turn)
    requires History(tries, name, k, turns) && |tries| > 1
    ensures History(tries[..|tries| - 1], name, k, turns)
    ensures FailedThen(tries[|tries| - 2], tries[|tries| - 1], name, k, turns(|tries| - 2))
  {
  }

  /** Attempt t failed, and u was made after it. */
  ghost predicate FailedThen(t: Try, u: Try, name: string, k: u64, turn: Turn) {
    TryOk(t, name) && !OutcomeOf(t, name, k, turn).Started? && u.at == AfterTurn(t, name, k, turn)
  }

  lemma {:induction false} OnlyTriedThen(s: System, t: Try, u: Try, name: string, k: u64, turn: Turn)
    requires AllOnlyTried(s, t.at, name, k) && FailedThen(t, u, name, k, turn)
    ensures AllOnlyTried(s, u.at, name, k)
  {
    OneTryMore(s, t, u.at, name, k, turn);
  }

  lemma {:induction false} SameOnlyTried(s: System, name: string, k: u64)
    ensures AllOnlyTried(s, s, name, k)
  {
  }

  lemma {:induction false} OneTryMore(s: System, t: Try, u: System, name: string, k: u64, turn: Turn)
    requires AllOnlyTried(s, t.at, name, k) && TryOk(t, name) && !OutcomeOf(t, name, k, turn).Started?
    requires u == AfterTurn(t, name, k, turn)
    ensures AllOnlyTried(s, u, name, k)
  {
    AfterTry(t, name, k, turn);
    AllTriedTwice(s, t.at, u, name, k);
  }

  /** The last attempt was made with the current view, unless it was the first. */
  lemma {:induction false} LastViewIsCurrent(tries: seq<Try>, name: string, k: u64, turns: nat -> Turn)
    requires History(tries, name, k, turns) && |tries| > 1
    ensures var last := tries[|tries| - 1];
            && IsCurrent(last.at, last.view, last.hash) && Increasing(last.view)
            && forall x: nat :: x in last.view <==> IsMember(last.at, x)
  {
    ReadyAgain(tries[..|tries| - 1], name, k, turns);
    FreshOk(tries[|tries| - 1].at, name);
  }

  /** What a whole start leaves, on every provider that existed before: if it failed,
      which pipelines are active and what is counted; if it succeeded, the same up
      to the last attempt, and then the view started at k. */
  lemma {:induction false} WhatStartLeaves(tries: seq<Try>, name: string, k: u64, turns: nat -> Turn)
    requires History(tries, name, k, turns)
    ensures var last, s := tries[|tries| - 1], AfterAll(tries, name, k, turns);
            && Ready(s, name) && AllOnlyTried(tries[0].at, last.at, name, k)
            && if LastOutcome(tries, name, k, turns).Started? then AllStable(s, last.view, name, k)
               else AllOnlyTried(tries[0].at, s, name, k)
  {
    var last := tries[|tries| - 1];
    BeforeLastTry(tries, name, k, turns);
    AfterTry(last, name, k, turns(|tries| - 1));
    if !LastOutcome(tries, name, k, turns).Started? {
      OneTryMore(tries[0].at, last, AfterAll(tries, name, k, turns), name, k, turns(|tries| - 1));
    }
  }

  /** After a start that was retried and ended well, every other rank has a view of
      as many servers as rank 0, and at each place the address of rank 0's server. */
  lemma {:induction false} AllRanksShareTheView(tries: seq<Try>, f: Addressing, name: string, k: u64,
                                                turns: nat -> Turn) returns (v: seq<string>)
    requires |tries| > 1
    requires var first, retries := FirstOutcome(tries, name, k, turns), RetriesOf(tries, f, name, k, turns);
             L.Complete(first, retries) && L.RootEnding(first, retries).Returned?
    ensures L.Follow(L.RootOps(FirstOutcome(tries, name, k, turns), RetriesOf(tries, f, name, k, turns))).view ==
            Some(v)
    ensures AreAddresses(v, f, tries[|tries| - 1].view)
  {
    L.OneView(FirstOutcome(tries, name, k, turns), RetriesOf(tries, f, name, k, turns));
    v := AddressesOf(f, tries[|tries| - 1].view);
  }

  /** So whatever the routing function, the server that any rank picks for a block
      has the address of the one that rank 0 picks. */
  lemma {:induction false} AllRanksRouteAlike(tries: seq<Try>, f: Addressing, name: string, k: u64,
                                              turns: nat -> Turn, hash: S.HashFunction, key: S.Key)
    requires |tries| > 1 && tries[|tries| - 1].view != []
    requires var first, retries := FirstOutcome(tries, name, k, turns), RetriesOf(tries, f, name, k, turns);
             L.Complete(first, retries) && L.RootEnding(first, retries).Returned?
    ensures var first, retries := FirstOutcome(tries, name, k, turns), RetriesOf(tries, f, name, k, turns);
            var followed, view := L.Follow(L.RootOps(first, retries)).view, tries[|tries| - 1].view;
            && followed.Some? && |followed.value| == |view|
            && followed.value[S.Route(hash, |view|, key)] == f(view[S.Route(hash, |view|, key)])
  {
    var v := AllRanksShareTheView(tries, f, name, k, turns);
  }

  /** After rank 0's start(k) ended well: whatever moves follow, every provider of
      the view stays a member with its pipeline active at k, until the move that
      closes the iteration there. */
  lemma {:induction false} StartedViewIsStable(s: System, view: seq<nat>, ms: seq<Move>, j: nat, name: string, k: u64)
    returns (n: nat)
    requires Ready(s, name) && AllStable(s, view, name, k) && LegalMoves(s, ms) && j < |view|
    ensures view[j] < |s.servers| && name in s.servers[view[j]].prov.names
    ensures n <= |ms| && LegalMoves(s, ms[..n])
    ensures var v := s.servers[view[j]];
            && StaysIn(Elastic.Play(s, ms[..n]), v.id, view[j], name, k, v.prov.names[name])
            && (n < |ms| ==>
                  && ms[n].At? && ms[n].s == view[j]
                  && Closes(Elastic.Play(s, ms[..n]).servers[view[j]].prov, ms[n].e, name, v.prov.names[name]))
  {
    assert StableOn(s, view[j], name, k);
    n := StableUntilClosedThere(s, ms, view[j], name, k, s.servers[view[j]].prov.names[name]);
  }

  // ----- The program -----

  /** The next wait of a fan-out. */
  lemma {:induction false} WaitNext(net: Net, name: string, before: nat -> seq<Item>, n: nat)
    ensures AfterReplies(net, name, before, n + 1) ==
            PlayAll(AfterReplies(net, name, before, n), name, Until(before(n), Progress(n)))
  {
    var sofar, more := Schedule(before, Driver(), n), Until(before(n), Driver()(n));
    assert Schedule(before, Driver(), n + 1) == sofar + more;
    FoldConcat(Player(name), net, sofar, more);
  }

  /** The n-th wait brings the n-th reply and leaves the earlier ones. */
  ghost predicate Replies(net: Net, name: string, before: nat -> seq<Item>, n: nat) {
    var now, later := AfterReplies(net, name, before, n).asked, AfterReplies(net, name, before, n + 1).asked;
    SameAsked(now, later) && AnsweredUpTo(now, n) && AnsweredUpTo(later, n + 1)
  }

  ghost predicate AllReply(net: Net, name: string, before: nat -> seq<Item>) {
    forall n :: 0 <= n < |net.asked| ==> Replies(net, name, before, n)
  }

  lemma {:induction false} StartsReply(s0: System, net: Net, name: string, before: nat -> seq<Item>)
    requires Ready(s0, name) && NetOk(s0, net, name)
    ensures AllReply(net, name, before)
  {
    forall n | 0 <= n < |net.asked|
      ensures Replies(net, name, before, n)
    {
      NextReply(s0, net, name, before, n);
    }
  }

  lemma {:induction false} NothingCollected(net: Net, name: string, before: nat -> seq<Item>)
    ensures AfterReplies(net, name, before, 0) == net && Collected(net.asked, 0, [], true, false)
  {
  }

  /** The routing function of a handle; reloading the view resets it. */
  datatype HashFunction = Default | Custom(f: S.HashFunction)

  function Routing(h: HashFunction): S.HashFunction {
    match h
    case Default => S.DefaultHash
    case Custom(f) => f
  }

  /** The remote side, as the requests of a client find it. */
  class Cluster {
    const addressOf: Addressing
    var net: Net

    constructor (s: System, f: Addressing)
      requires SysWf(s)
      ensures net == Net(s, []) && addressOf == f
    {
      net := Net(s, []);
      addressOf := f;
    }

    /** No request is outstanding any more. */
    method Clear()
      modifies this
      ensures net == Net(old(net).sys, [])
    {
      net := Net(net.sys, []);
    }

    /** A request is sent; the client does not wait. */
    method Send(x: nat, r: Request, b: BackendResult)
      modifies this
      ensures net == Net(old(net).sys, old(net).asked + [Asked(x, r, b, None, Sent)])
    {
      net := Net(net.sys, net.asked + [Asked(x, r, b, None, Sent)]);
    }

    /** The client waits for the reply to request j.  Before that, anything happens. */
    method Wait(j: nat, name: string, items: seq<Item>)
      modifies this
      ensures net == PlayAll(old(net), name, Until(items, Progress(j)))
    {
      ghost var f := Player(name);
      for n := 0 to |items|
        invariant net == Fold(f, old(net), items[..n])
      {
        assert items[..n + 1] == items[..n] + [items[n]];
        FoldSnoc(f, old(net), items[..n], items[n]);
        net := PlayItem(net, name, items[n]);
      }
      assert items[..|items|] == items;
      FoldSnoc(f, old(net), items, Progress(j));
      net := PlayItem(net, name, Progress(j));
      FoldSnoc(f, old(net), items + [Progress(j)], Progress(j));
      net := PlayItem(net, name, Progress(j));
      FoldSnoc(f, old(net), items + [Progress(j)] + [Progress(j)], Progress(j));
      net := PlayItem(net, name, Progress(j));
    }

    /** The client waits for n replies, whatever they are. */
    method WaitAll(name: string, before: nat -> seq<Item>, n: nat)
      modifies this
      ensures net == AfterReplies(old(net), name, before, n)
    {
      ghost var net0 := net;
      for i := 0 to n
        invariant net == AfterReplies(net0, name, before, i)
      {
        WaitNext(net0, name, before, i);
        Wait(i, name, before(i));
      }
    }

    /** Time passes between two attempts. */
    method Pause(gap: seq<Move>)
      modifies this
      ensures net.sys == Gapped(old(net).sys, gap)
    {
      net := Net(Gapped(net.sys, gap), []);
    }
  }

  // ----- What rank 0 gathers from the replies -----

  ghost predicate Collected(asked: seq<Asked>, n: nat, started: seq<nat>, ok: bool, mismatch: bool) {
    && n <= |asked| && started == Started(asked, n)
    && (ok <==> forall j :: 0 <= j < n ==> Accepts(asked[j]))
    && (mismatch <==> exists j :: 0 <= j < n && RefusedForHash(asked[j]))
  }

  lemma {:induction false} StartedSame(now: seq<Asked>, later: seq<Asked>, n: nat)
    requires n <= |now| && n <= |later| && forall j :: 0 <= j < n ==> later[j] == now[j]
    ensures Started(now, n) == Started(later, n)
  {
    if n > 0 { StartedSame(now, later, n - 1); }
  }

  lemma {:induction false} CollectedNext(now: seq<Asked>, later: seq<Asked>, n: nat, started: seq<nat>, ok: bool,
                                         mismatch: bool)
    requires SameAsked(now, later) && AnsweredUpTo(now, n) && AnsweredUpTo(later, n + 1)
    requires Collected(now, n, started, ok, mismatch)
    ensures var reply := later[n].st.reply;
            Collected(later, n + 1, if reply == None then started + [later[n].x] else started,
                      ok && reply == None, mismatch || reply == Some(INVALID_GROUP_HASH))
  {
    StartedSame(now, later, n);
    assert forall j :: 0 <= j < n ==> later[j] == now[j];
    assert Accepts(later[n]) <==> later[n].st.reply == None;
    assert RefusedForHash(later[n]) <==> later[n].st.reply == Some(INVALID_GROUP_HASH);
  }

  function OutcomeBy(ok: bool, mismatch: bool): L.Outcome {
    if ok then L.Started else if mismatch then L.HashMismatch else L.OtherFailure
  }

  lemma {:induction false} CollectedAll(asked: seq<Asked>, started: seq<nat>, ok: bool, mismatch: bool)
    requires Collected(asked, |asked|, started, ok, mismatch)
    ensures OutcomeIn(asked) == OutcomeBy(ok, mismatch)
  {
  }

  class DistributedPipelineHandle {
    const m_cluster: Cluster
    const m_comm: L.RootCommunicator
    const m_name: string
    var m_pipelines: seq<nat>
    var m_group_hash: u64
    var m_hash: HashFunction

    constructor (cluster: Cluster, comm: L.RootCommunicator, name: string, pipelines: seq<nat>, groupHash: u64)
      ensures m_cluster == cluster && m_comm == comm && m_name == name
      ensures m_pipelines == pipelines && m_group_hash == groupHash && m_hash == Default
    {
      m_cluster := cluster;
      m_comm := comm;
      m_name := name;
      m_pipelines := pipelines;
      m_group_hash := groupHash;
      m_hash := Default;
    }

    method SetHashFunction(f: S.HashFunction)
      modifies this`m_hash
      ensures m_hash == Custom(f)
    {
      m_hash := Custom(f);
    }

    /** The pipeline of the view that stage sends a block to; None, an error, if there
        is none. */
    method Pick(dataset: string, iteration: u64, block: u64) returns (pipeline: Option<nat>)
      ensures pipeline.None? <==> m_pipelines == []
      ensures pipeline.Some? ==>
                pipeline.value == match m_hash
                                  case Default => m_pipelines[block % |m_pipelines|]
                                  case Custom(f) => m_pipelines[f(dataset, iteration, block) % |m_pipelines|]
    {
      if |m_pipelines| == 0 {
        return None;
      }
      var i := S.Route(Routing(m_hash), |m_pipelines|, S.Key(iteration, dataset, block));
      pipeline := Some(m_pipelines[i]);
    }

    /** start is sent to every pipeline of the view. */
    method SendStarts(k: u64, plan: Plan)
      modifies m_cluster
      ensures m_cluster.net == Net(old(m_cluster.net).sys, StartsTo(m_pipelines, m_group_hash, k, plan))
    {
      m_cluster.Clear();
      ghost var all := StartsTo(m_pipelines, m_group_hash, k, plan);
      for i := 0 to |m_pipelines|
        invariant m_cluster.net == Net(old(m_cluster.net).sys, all[..i])
      {
        m_cluster.Send(m_pipelines[i], Request.Start(m_group_hash, k), plan.backends(i));
        assert all[..i + 1] == all[..i] + [all[i]];
      }
    }

    /** One reply is waited for and collected. */
    method CollectReply(i: nat, plan: Plan, ghost net0: Net, started: seq<nat>, ok: bool, mismatch: bool)
      returns (started': seq<nat>, ok': bool, mismatch': bool)
      requires AllReply(net0, m_name, plan.sends) && i < |net0.asked|
      requires m_cluster.net == AfterReplies(net0, m_name, plan.sends, i)
      requires Collected(m_cluster.net.asked, i, started, ok, mismatch)
      modifies m_cluster
      ensures m_cluster.net == AfterReplies(net0, m_name, plan.sends, i + 1)
      ensures Collected(m_cluster.net.asked, i + 1, started', ok', mismatch')
    {
      ghost var now := m_cluster.net.asked;
      assert Replies(net0, m_name, plan.sends, i);
      WaitNext(net0, m_name, plan.sends, i);
      m_cluster.Wait(i, m_name, plan.sends(i));
      CollectedNext(now, m_cluster.net.asked, i, started, ok, mismatch);
      var reply := m_cluster.net.asked[i].st.reply;
      started', ok', mismatch' := started, ok, mismatch;
      if reply != None {
        ok' := false;
        if !mismatch && reply == Some(INVALID_GROUP_HASH) {
          mismatch' := true;
        }
      } else {
        started' := started + [m_cluster.net.asked[i].x];
      }
    }

    /** All replies are waited for and collected. */
    method CollectReplies(plan: Plan) returns (started: seq<nat>, ok: bool, mismatch: bool)
      requires AllReply(m_cluster.net, m_name, plan.sends) && |m_cluster.net.asked| == |m_pipelines|
      modifies m_cluster
      ensures m_cluster.net == AfterReplies(old(m_cluster.net), m_name, plan.sends, |m_pipelines|)
      ensures Collected(m_cluster.net.asked, |m_pipelines|, started, ok, mismatch)
    {
      ghost var net0 := m_cluster.net;
      started, ok, mismatch := [], true, false;
      NothingCollected(net0, m_name, plan.sends);
      for i := 0 to |m_pipelines|
        invariant m_cluster.net == AfterReplies(net0, m_name, plan.sends, i)
        invariant Collected(m_cluster.net.asked, i, started, ok, mismatch)
      {
        started, ok, mismatch := CollectReply(i, plan, net0, started, ok, mismatch);
      }
    }

    /** abort is sent to every pipeline that did start, and all replies are waited for. */
    method TakeBack(started: seq<nat>, k: u64, plan: Plan)
      requires Ready(m_cluster.net.sys, m_name) && ViewOk(started, |m_cluster.net.sys.servers|)
      modifies m_cluster
      ensures m_cluster.net ==
              AfterReplies(Net(old(m_cluster.net).sys, AbortsTo(started, k)), m_name, plan.aborts, |started|)
    {
      m_cluster.Clear();
      ghost var all := AbortsTo(started, k);
      for i := 0 to |started|
        invariant m_cluster.net == Net(old(m_cluster.net).sys, all[..i])
      {
        m_cluster.Send(started[i], Request.Abort(k), Good);
        assert all[..i + 1] == all[..i] + [all[i]];
      }
      assert all[..|started|] == all;
      m_cluster.WaitAll(m_name, plan.aborts, |started|);
    }

    /** start is sent to every pipeline of the view, and all replies are collected. */
    method Ask(k: u64, plan: Plan) returns (started: seq<nat>, ok: bool, mismatch: bool)
      requires Ready(m_cluster.net.sys, m_name) && ViewOk(m_pipelines, |m_cluster.net.sys.servers|)
      modifies m_cluster
      ensures m_cluster.net == Concluded(old(m_cluster.net).sys, m_pipelines, m_name, m_group_hash, k, plan)
      ensures |m_cluster.net.asked| == |m_pipelines|
      ensures Collected(m_cluster.net.asked, |m_pipelines|, started, ok, mismatch)
    {
      ghost var s0 := m_cluster.net.sys;
      SendStarts(k, plan);
      SentOk(s0, m_cluster.net.asked, m_name);
      ghost var sent := m_cluster.net;
      StartsReply(s0, sent, m_name, plan.sends);
      started, ok, mismatch := CollectReplies(plan);
      PlaySame(sent, m_name, Schedule(plan.sends, Driver(), |m_pipelines|));
    }

    /** One turn of the start loop of rank 0: ask every pipeline of the view to
        start, tell the other ranks, and take it all back if one refused. */
    method Attempt(k: u64, plan: Plan) returns (outcome: L.Outcome)
      requires Ready(m_cluster.net.sys, m_name) && ViewOk(m_pipelines, |m_cluster.net.sys.servers|)
      modifies m_cluster, m_comm
      ensures outcome == OutcomeIn(Concluded(old(m_cluster.net).sys, m_pipelines, m_name, m_group_hash, k, plan).asked)
      ensures m_cluster.net.sys == AfterAttempt(old(m_cluster.net).sys, m_pipelines, m_name, m_group_hash, k, plan)
      ensures m_comm.ops == old(m_comm.ops) + [L.Bcast(1, L.Flag(outcome.Started?))]
    {
      ghost var s0 := m_cluster.net.sys;
      var started, ok, mismatch := Ask(k, plan);
      ghost var net := m_cluster.net;
      CollectedAll(net.asked, started, ok, mismatch);
      m_comm.Call(L.Bcast(L.SIZEOF_BOOL, L.Flag(ok)));
      outcome := OutcomeBy(ok, mismatch);
      if !ok {
        StartsEnd(s0, m_pipelines, m_name, m_group_hash, k, plan);
        StartedMembers(net.asked, |net.asked|, |s0.servers|);
        TakeBack(started, k, plan);
      }
    }

    /** The handle holds that view and hash, in the group as it is. */
    ghost predicate Holds(t: Try)
      reads this, m_cluster
    {
      t == Try(m_cluster.net.sys, m_pipelines, m_group_hash)
    }

    /** The addresses of the members are packed and broadcast. */
    method ShareAddresses() returns (addrs: L.AddressList)
      modifies m_comm
      ensures addrs == AddressesOf(m_cluster.addressOf, m_pipelines)
      ensures AreAddresses(addrs, m_cluster.addressOf, m_pipelines)
      ensures m_comm.ops == old(m_comm.ops) + L.LoadOps(L.Loaded(addrs))
    {
      addrs := AddressesOf(m_cluster.addressOf, m_pipelines);
      var packed := PackAddresses(addrs);
      m_comm.Call(L.Bcast(L.SIZEOF_INT, L.GroupSize(|addrs|)));
      m_comm.Call(L.Bcast(packed.Length, L.Addresses(packed[..])));
    }

    /** The hash of the view, as the constructor of the new handle computes it. */
    method HashView()
      requires Sound(m_cluster.net.sys)
      modifies this`m_group_hash
      ensures m_group_hash == ViewHash(m_cluster.net.sys.servers)
    {
      MemberIdsDistinct(m_cluster.net.sys.servers);
      m_group_hash := ComputeGroupHash(MemberIds(m_cluster.net.sys.servers));
      XorAllIsSetHash(MemberIds(m_cluster.net.sys.servers));
    }

    /** makeDistributedPipelineHandle on rank 0, and storing the new handle's
        fields: the view, its hash, and the default routing function. */
    method Reload(reading: Reading) returns (load: L.Load)
      requires Sound(m_cluster.net.sys)
      modifies this, m_comm
      ensures m_comm.ops == old(m_comm.ops) + L.LoadOps(load)
      ensures if reading.Readable? then
                load == LoadAt(m_cluster.addressOf, m_pipelines) && Holds(Fresh(m_cluster.net.sys)) && m_hash == Default
              else load == LoadFailure(reading) && unchanged(this)
      // what the others get to see
      ensures reading.NoGroup? ==> m_comm.ops == old(m_comm.ops)
      ensures reading.NoAddress? ==> m_comm.ops == old(m_comm.ops) + [L.Bcast(4, L.GroupSize(-1))]
      ensures reading.Readable? ==> load.Loaded? && AreAddresses(load.addrs, m_cluster.addressOf, m_pipelines)
      ensures reading.Readable? ==>
                m_comm.ops == old(m_comm.ops) + [L.Bcast(4, L.GroupSize(|m_pipelines|)),
                                                 L.Bcast(256 * |m_pipelines|, L.Addresses(Packed(load.addrs)))]
    {
      match reading
      case NoGroup =>
        load := L.GroupUnreadable;
        assert m_comm.ops == m_comm.ops + [];
      case NoAddress =>
        load := L.AddressUnresolved;
        m_comm.Call(L.Bcast(L.SIZEOF_INT, L.GroupSize(-1)));
      case Readable =>
        m_pipelines := ViewOf(m_cluster.net.sys.servers);
        var addrs := ShareAddresses();
        load := L.Loaded(addrs);
        HashView();
        m_hash := Default;
    }

    /** The attempt, and the time after it if it is to be made again. */
    method TryOnce(k: u64, turn: Turn, ghost t: Try) returns (outcome: L.Outcome)
      requires Holds(t) && TryOk(t, m_name)
      modifies m_cluster, m_comm
      ensures outcome == OutcomeOf(t, m_name, k, turn) && m_cluster.net.sys == AfterTurn(t, m_name, k, turn)
      ensures m_comm.ops == old(m_comm.ops) + [L.Bcast(L.SIZEOF_BOOL, L.Flag(outcome.Started?))]
    {
      outcome := Attempt(k, turn.plan);
      if outcome.HashMismatch? {
        m_cluster.Pause(turn.gap);
      }
    }

    /** A turn of the loop of start other than the first: load the view again, and
        make the attempt. */
    method TryAgain(k: u64, turn: Turn) returns (load: L.Load, outcome: L.Outcome)
      requires Ready(m_cluster.net.sys, m_name)
      modifies this, m_cluster, m_comm
      ensures turn.reading.Readable? ==>
                var t := Fresh(old(m_cluster.net).sys);
                && m_pipelines == t.view && m_group_hash == t.hash && m_hash == Default
                && load == LoadAt(m_cluster.addressOf, t.view) && outcome == OutcomeOf(t, m_name, k, turn)
                && m_cluster.net.sys == AfterTurn(t, m_name, k, turn)
      ensures !turn.reading.Readable? ==>
                load == LoadFailure(turn.reading) && outcome.HashMismatch? && unchanged(this) && unchanged(m_cluster)
      ensures m_comm.ops == old(m_comm.ops) + L.RetryOps(L.Retry(load, outcome))
    {
      load := Reload(turn.reading);
      if !load.Loaded? {
        outcome := L.HashMismatch;
        assert L.LoadOps(load) + [] == L.LoadOps(load);
        return;
      }
      FreshOk(m_cluster.net.sys, m_name);
      outcome := TryOnce(k, turn, Fresh(m_cluster.net.sys));
      Snoc(old(m_comm.ops), L.LoadOps(load), [L.Bcast(L.SIZEOF_BOOL, L.Flag(outcome.Started?))]);
    }

    /** The handle and the group are as these attempts left them. */
    ghost predicate LeftBy(tries: seq<Try>, outcome: L.Outcome, k: u64, turns: nat -> Turn)
      requires tries != []
      reads this, m_cluster
    {
      && outcome == LastOutcome(tries, m_name, k, turns) && m_cluster.net.sys == AfterAll(tries, m_name, k, turns)
      && m_pipelines == tries[|tries| - 1].view && m_group_hash == tries[|tries| - 1].hash
    }

    /** The barrier and the first attempt, with the view that the handle has. */
    method TryFirst(k: u64, turns: nat -> Turn) returns (outcome: L.Outcome, ghost tries: seq<Try>)
      requires Ready(m_cluster.net.sys, m_name) && ViewOk(m_pipelines, |m_cluster.net.sys.servers|)
      modifies m_cluster, m_comm
      ensures tries == [Try(old(m_cluster.net).sys, old(m_pipelines), old(m_group_hash))]
      ensures LeftBy(tries, outcome, k, turns)
      ensures OnRecord(tries, [], m_comm.ops, old(m_comm.ops), m_cluster.addressOf, m_name, k, turns)
    {
      tries := [Try(m_cluster.net.sys, m_pipelines, m_group_hash)];
      FirstTry(tries[0], m_comm.ops, m_cluster.addressOf, m_name, k, turns);
      m_comm.Call(L.Barrier);
      outcome := TryOnce(k, turns(0), tries[0]);
    }

    /** One retry on the record; when the view cannot be loaded, start ends there. */
    method Retry(k: u64, attempts: nat, turns: nat -> Turn, ghost tries: seq<Try>, ghost retries: seq<L.Retry>,
                 ghost ops0: seq<L.Collective>)
      returns (load: L.Load, outcome: L.Outcome, ghost tries': seq<Try>, ghost retries': seq<L.Retry>)
      requires |tries| == attempts > 0 && LeftBy(tries, L.HashMismatch, k, turns)
      requires OnRecord(tries, retries, m_comm.ops, ops0, m_cluster.addressOf, m_name, k, turns)
      requires HonestBackends(turns(attempts).plan)
      modifies this, m_cluster, m_comm
      ensures load.Loaded? <==> turns(attempts).reading.Readable?
      ensures load.Loaded? ==>
                && |tries'| == attempts + 1 && tries'[0] == tries[0] && LeftBy(tries', outcome, k, turns)
                && OnRecord(tries', retries', m_comm.ops, ops0, m_cluster.addressOf, m_name, k, turns)
                && m_hash == Default && (outcome.HashMismatch? ==> Less(m_cluster.net.sys, old(m_cluster.net.sys)))
      ensures !load.Loaded? ==>
                && unchanged(this) && unchanged(m_cluster) && outcome.HashMismatch? && tries' == tries
                && retries' == retries + [L.Retry(LoadFailure(turns(attempts).reading), L.HashMismatch)]
                && GaveUp(tries, retries', ops0, k, turns)
    {
      ghost var ops, t := m_comm.ops, Fresh(m_cluster.net.sys);
      ReadyAgain(tries, m_name, k, turns);
      load, outcome := TryAgain(k, turns(attempts));
      tries', retries' := tries, retries + [L.Retry(load, outcome)];
      if load.Loaded? {
        RetryOnRecord(tries, retries, ops, ops0, m_cluster.addressOf, m_name, k, turns);
        tries' := tries + [t];
      } else {
        LastTryFails(tries, retries, ops, ops0, m_cluster.addressOf, m_name, k, turns, L.Retry(load, outcome));
      }
    }

    /** The collective calls are those of a start that threw while loading a view. */
    ghost predicate GaveUp(tries: seq<Try>, retries: seq<L.Retry>, ops0: seq<L.Collective>, k: u64, turns: nat -> Turn)
      requires tries != []
      reads this, m_comm
    {
      var first := FirstOutcome(tries, m_name, k, turns);
      m_comm.ops == ops0 + L.RootOps(first, retries) && L.Complete(first, retries)
          && L.RootEnding(first, retries).Threw?
    }

    /** The loop of start on rank 0.  It terminates because only a hash mismatch is
        retried, membership events are finite, and between two attempts an
        outstanding announcement arrives. */
    method StartLoop(k: u64, turns: nat -> Turn)
      returns (ending: L.Ending, outcome: L.Outcome, ghost tries: seq<Try>, ghost retries: seq<L.Retry>)
      requires Ready(m_cluster.net.sys, m_name) && ViewOk(m_pipelines, |m_cluster.net.sys.servers|)
      requires forall n :: HonestBackends(turns(n).plan)
      modifies this, m_cluster, m_comm
      // the attempts, the first with the old view, each other one with the view of its time
      ensures History(tries, m_name, k, turns)
      ensures tries[0] == Try(old(m_cluster.net).sys, old(m_pipelines), old(m_group_hash))
      // the state is that after the last of them
      ensures LeftBy(tries, outcome, k, turns)
      ensures m_hash == if |tries| > 1 then Default else old(m_hash)
      // the ending
      ensures if outcome.HashMismatch? then ending.Threw? && !turns(|tries|).reading.Readable? else ending.Returned?
      // the collective calls
      ensures retries == RetriesOf(tries, m_cluster.addressOf, m_name, k, turns) +
                         if ending.Threw? then [L.Retry(LoadFailure(turns(|tries|).reading), L.HashMismatch)] else []
      ensures var first := FirstOutcome(tries, m_name, k, turns);
              && m_comm.ops == old(m_comm.ops) + L.RootOps(first, retries)
              && L.Complete(first, retries) && ending == L.RootEnding(first, retries)
              && (ending.Returned? ==> (outcome.Started? <==> L.NoSilentFailure(first, retries)))
    {
      ghost var ops0 := m_comm.ops;
      var attempts := 1;
      outcome, tries := TryFirst(k, turns);
      retries := [];
      while outcome.HashMismatch?
        invariant |tries| == attempts > 0
        invariant tries[0] == Try(old(m_cluster.net).sys, old(m_pipelines), old(m_group_hash))
        invariant LeftBy(tries, outcome, k, turns)
        invariant OnRecord(tries, retries, m_comm.ops, ops0, m_cluster.addressOf, m_name, k, turns)
        invariant m_hash == if attempts > 1 then Default else old(m_hash)
        decreases outcome.HashMismatch?, m_cluster.net.sys.budget, Backlog(m_cluster.net.sys.servers)
      {
        var load;
        load, outcome, tries, retries := Retry(k, attempts, turns, tries, retries, ops0);
        if !load.Loaded? {
          ending := L.Threw;
          return;
        }
        attempts := attempts + 1;
      }
      ending := L.Returned;
    }

    /** start on rank 0: what the loop does, and what that comes to. */
    method Start(k: u64, turns: nat -> Turn)
      returns (ending: L.Ending, outcome: L.Outcome, ghost tries: seq<Try>, ghost retries: seq<L.Retry>)
      requires Ready(m_cluster.net.sys, m_name) && ViewOk(m_pipelines, |m_cluster.net.sys.servers|)
      requires forall n :: HonestBackends(turns(n).plan)
      modifies this, m_cluster, m_comm
      // the attempts, the first with the old view, each other one with the view of its time
      ensures History(tries, m_name, k, turns)
      ensures tries[0] == Try(old(m_cluster.net).sys, old(m_pipelines), old(m_group_hash))
      // the state is that after the last of them
      ensures LeftBy(tries, outcome, k, turns)
      ensures m_hash == if |tries| > 1 then Default else old(m_hash)
      // the ending
      ensures if outcome.HashMismatch? then ending.Threw? && !turns(|tries|).reading.Readable? else ending.Returned?
      // the collective calls
      ensures retries == RetriesOf(tries, m_cluster.addressOf, m_name, k, turns) +
                         if ending.Threw? then [L.Retry(LoadFailure(turns(|tries|).reading), L.HashMismatch)] else []
      ensures var first := FirstOutcome(tries, m_name, k, turns);
              && m_comm.ops == old(m_comm.ops) + L.RootOps(first, retries)
              && L.Complete(first, retries) && ending == L.RootEnding(first, retries)
              && (ending.Returned? ==> (outcome.Started? <==> L.NoSilentFailure(first, retries)))
      // all or nothing
      ensures Ready(m_cluster.net.sys, m_name)
      ensures AllOnlyTried(old(m_cluster.net).sys, tries[|tries| - 1].at, m_name, k)
      ensures if outcome.Started? then AllStable(m_cluster.net.sys, m_pipelines, m_name, k)
              else AllOnlyTried(old(m_cluster.net).sys, m_cluster.net.sys, m_name, k)
      // after a retry the view is the membership
      ensures |tries| > 1 ==>
                && IsCurrent(tries[|tries| - 1].at, m_pipelines, m_group_hash) && Increasing(m_pipelines)
                && forall x: nat :: x in m_pipelines <==> IsMember(tries[|tries| - 1].at, x)
    {
      ending, outcome, tries, retries := StartLoop(k, turns);
      WhatStartLeaves(tries, m_name, k, turns);
      if |tries| > 1 { LastViewIsCurrent(tries, m_name, k, turns); }
    }
  }
}

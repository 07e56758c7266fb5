/** The collective calls of a distributed start: what rank 0 issues, what every
    other rank issues in answer, and when the two agree.  The ordering rule is
    that of section 5.13 of the MPI 3.1 standard: all ranks call the same
    collectives, with the same byte counts, in the same order. */
module Lockstep {
  import opened Words
  import opened Packing

  const SIZEOF_BOOL := 1
  const SIZEOF_INT := 4

  /** A list of addresses that can be packed. */
  type AddressList = addrs: seq<string> | InBounds(addrs)

  /** What a broadcast carries. */
  datatype Payload = Flag(ok: bool) | GroupSize(n: int) | Addresses(buf: seq<char>)

  datatype Collective = Barrier | Bcast(bytes: nat, payload: Payload)

  /** A call as another rank sees it. */
  datatype Shape = BarrierCall | BcastCall(bytes: nat)

  function ShapeOf(c: Collective): Shape {
    match c
    case Barrier => BarrierCall
    case Bcast(bytes, _) => BcastCall(bytes)
  }

  function Shapes(cs: seq<Collective>): seq<Shape> {
    seq(|cs|, i requires 0 <= i < |cs| => ShapeOf(cs[i]))
  }

  /** How rank 0 fared when it loaded a view: the group could not be read, an
      address could not be resolved, or it found servers at these addresses. */
  datatype Load = GroupUnreadable | AddressUnresolved | Loaded(addrs: AddressList)

  /** What became of one attempt: the outcome of the start requests, and whether
      one of them was refused for its group hash. */
  datatype Outcome = Started | HashMismatch | OtherFailure

  /** A retry: the view is loaded again, then the attempt is made. */
  datatype Retry = Retry(load: Load, outcome: Outcome)

  /** How a call to start ends on a rank; Blocked means inside a collective. */
  datatype Ending = Returned | Threw | Blocked

  // ----- Rank 0 -----

  function LoadOps(load: Load): seq<Collective> {
    match load
    case GroupUnreadable => []
    case AddressUnresolved => [Bcast(SIZEOF_INT, GroupSize(-1))]
    case Loaded(addrs) =>
      [Bcast(SIZEOF_INT, GroupSize(|addrs|)), Bcast(|addrs| * SLOT, Addresses(Packed(addrs)))]
  }

  function AttemptOps(outcome: Outcome, retries: seq<Retry>): seq<Collective>
    decreases |retries|
  {
    [Bcast(SIZEOF_BOOL, Flag(outcome.Started?))] +
    if outcome.HashMismatch? && retries != [] then
      LoadOps(retries[0].load) +
      if retries[0].load.Loaded? then AttemptOps(retries[0].outcome, retries[1..]) else []
    else []
  }

  /** The collective calls of rank 0 in a start whose attempts went that way. */
  function RootOps(outcome: Outcome, retries: seq<Retry>): seq<Collective> {
    [Barrier] + AttemptOps(outcome, retries)
  }

  /** The attempts make a whole call to start: only a hash mismatch is retried,
      and it always is. */
  predicate Complete(outcome: Outcome, retries: seq<Retry>)
    decreases |retries|
  {
    if !outcome.HashMismatch? then retries == []
    else
      retries != [] &&
      if retries[0].load.Loaded? then Complete(retries[0].outcome, retries[1..]) else |retries| == 1
  }

  function RootEnding(outcome: Outcome, retries: seq<Retry>): Ending
    requires Complete(outcome, retries)
    decreases |retries|
  {
    if !outcome.HashMismatch? then Returned
    else if retries[0].load.Loaded? then RootEnding(retries[0].outcome, retries[1..])
    else Threw
  }

  // ----- The other ranks -----

  /** What another rank issues, given what rank 0 broadcasts, how it ends, and the
      addresses of the last view it loaded, if any. */
  datatype Following = Following(calls: seq<Shape>, ending: Ending, view: Option<seq<string>>)

  function Then(call: Shape, f: Following): Following {
    f.(calls := [call] + f.calls)
  }

  /** The view is that one, unless a later one is loaded. */
  function With(addrs: seq<string>, f: Following): Following {
    f.(view := Later(Some(addrs), f.view))
  }

  function Later(first: Option<seq<string>>, second: Option<seq<string>>): Option<seq<string>> {
    if second.Some? then second else first
  }

  /** Waiting for the flag of an attempt. */
  function FollowAttempt(ops: seq<Collective>): Following
    decreases |ops|, 1
  {
    var call := BcastCall(SIZEOF_BOOL);
    if ops == [] || ShapeOf(ops[0]) != call || !ops[0].payload.Flag? then Following([call], Blocked, None)
    else if ops[0].payload.ok then Following([call], Returned, None)
    else Then(call, FollowLoad(ops[1..]))
  }

  predicate CarriesAddresses(c: Collective, n: nat) {
    c.Bcast? && c.payload.Addresses? && |c.payload.buf| == n * SLOT == c.bytes
  }

  /** Inside makeDistributedPipelineHandle, then back to the next attempt. */
  function FollowLoad(ops: seq<Collective>): Following
    decreases |ops|, 0
  {
    var call := BcastCall(SIZEOF_INT);
    if ops == [] || ShapeOf(ops[0]) != call || !ops[0].payload.GroupSize? then Following([call], Blocked, None)
    else
      var n := ops[0].payload.n;
      if n < 0 then Following([call], Threw, None)
      else
        var second := BcastCall(n * SLOT);
        if |ops| == 1 || !CarriesAddresses(ops[1], n) then Following([call, second], Blocked, None)
        else
          var addrs := Unpacked(ops[1].payload.buf, n);
          Then(call, Then(second, With(addrs, FollowAttempt(ops[2..]))))
  }

  function Follow(ops: seq<Collective>): Following {
    if ops == [] || !ops[0].Barrier? then Following([BarrierCall], Blocked, None)
    else Then(BarrierCall, FollowAttempt(ops[1..]))
  }

  // ----- When the ranks agree -----

  /** Every failed attempt includes a hash mismatch, and the group file could be
      read whenever the view was loaded. */
  predicate NoSilentFailure(outcome: Outcome, retries: seq<Retry>) {
    && !outcome.OtherFailure?
    && forall i :: 0 <= i < |retries| ==>
         !retries[i].load.GroupUnreadable? && (retries[i].load.Loaded? ==> !retries[i].outcome.OtherFailure?)
  }

  lemma {:induction false} ShapesConcat(a: seq<Collective>, b: seq<Collective>)
    ensures Shapes(a + b) == Shapes(a) + Shapes(b)
  {
  }

  lemma {:induction false} FollowFlag(ok: bool, rest: seq<Collective>)
    ensures FollowAttempt([Bcast(SIZEOF_BOOL, Flag(ok))] + rest) ==
            if ok then Following([BcastCall(SIZEOF_BOOL)], Returned, None)
                else Then(BcastCall(SIZEOF_BOOL), FollowLoad(rest))
  {
    assert ([Bcast(SIZEOF_BOOL, Flag(ok))] + rest)[1..] == rest;
  }

  /** What the other ranks read of the addresses that rank 0 packed. */
  function Read(addrs: AddressList): seq<string> {
    Unpacked(Packed(addrs), |addrs|)
  }

  lemma {:induction false} FollowLoaded(addrs: AddressList, rest: seq<Collective>)
    ensures FollowLoad(LoadOps(Loaded(addrs)) + rest) ==
            Then(BcastCall(SIZEOF_INT), Then(BcastCall(|addrs| * SLOT), With(Read(addrs), FollowAttempt(rest))))
  {
    assert (LoadOps(Loaded(addrs)) + rest)[2..] == rest;
  }

  /** The addresses of the last view that was loaded, as the other ranks read them. */
  function LastView(outcome: Outcome, retries: seq<Retry>): Option<seq<string>>
    decreases |retries|
  {
    if !outcome.HashMismatch? || retries == [] || !retries[0].load.Loaded? then None
    else Later(Some(Read(retries[0].load.addrs)), LastView(retries[0].outcome, retries[1..]))
  }

  /** What is claimed of one attempt and all that follow it. */
  ghost predicate InStep(f: Following, ops: seq<Collective>, outcome: Outcome, retries: seq<Retry>)
    requires Complete(outcome, retries)
  {
    f == if NoSilentFailure(outcome, retries)
         then Following(Shapes(ops), RootEnding(outcome, retries), LastView(outcome, retries))
         else Following(Shapes(ops) + [BcastCall(SIZEOF_INT)], Blocked, LastView(outcome, retries))
  }

  lemma {:induction false} OneMoreRetry(outcome: Outcome, retries: seq<Retry>)
    requires Complete(outcome, retries) && outcome.HashMismatch? && retries[0].load.Loaded?
    ensures NoSilentFailure(outcome, retries) <==> NoSilentFailure(retries[0].outcome, retries[1..])
  {
    var rest := retries[1..];
    if NoSilentFailure(outcome, retries) {
      assert retries[0].load.Loaded?;
      forall i | 0 <= i < |rest|
        ensures !rest[i].load.GroupUnreadable? && (rest[i].load.Loaded? ==> !rest[i].outcome.OtherFailure?)
      {
        assert rest[i] == retries[i + 1];
      }
    }
    if NoSilentFailure(retries[0].outcome, rest) {
      forall i | 0 <= i < |retries|
        ensures !retries[i].load.GroupUnreadable? && (retries[i].load.Loaded? ==> !retries[i].outcome.OtherFailure?)
      {
        if i > 0 { assert retries[i] == rest[i - 1]; }
      }
    }
  }

  lemma {:induction false} LoadedInStep(outcome: Outcome, retries: seq<Retry>, f: Following, rest: seq<Collective>)
    requires Complete(outcome, retries) && outcome.HashMismatch? && retries[0].load.Loaded?
    requires InStep(f, rest, retries[0].outcome, retries[1..])
    ensures var addrs := retries[0].load.addrs;
            InStep(Then(BcastCall(SIZEOF_BOOL), Then(BcastCall(SIZEOF_INT), Then(BcastCall(|addrs| * SLOT),
                With(Read(addrs), f)))),
                   [Bcast(SIZEOF_BOOL, Flag(false))] + (LoadOps(Loaded(addrs)) + rest), outcome, retries)
  {
    var load := LoadOps(Loaded(retries[0].load.addrs));
    OneMoreRetry(outcome, retries);
    ShapesConcat(load, rest);
    ShapesConcat([Bcast(SIZEOF_BOOL, Flag(false))], load + rest);
    assert Shapes(load) == [BcastCall(SIZEOF_INT), BcastCall(|retries[0].load.addrs| * SLOT)];
  }

  lemma {:induction false} LastAttemptInStep(outcome: Outcome, retries: seq<Retry>)
    requires Complete(outcome, retries) && !(outcome.HashMismatch? && retries[0].load.Loaded?)
    ensures InStep(FollowAttempt(AttemptOps(outcome, retries)), AttemptOps(outcome, retries), outcome, retries)
  {
    var flag := [Bcast(SIZEOF_BOOL, Flag(outcome.Started?))];
    if outcome.HashMismatch? {
      var load := LoadOps(retries[0].load);
      assert load + [] == load;
      FollowFlag(false, load);
    } else {
      assert flag + [] == flag;
      FollowFlag(outcome.Started?, []);
    }
  }

  lemma {:induction false} AttemptInStep(outcome: Outcome, retries: seq<Retry>)
    requires Complete(outcome, retries)
    ensures InStep(FollowAttempt(AttemptOps(outcome, retries)), AttemptOps(outcome, retries), outcome, retries)
    decreases |retries|
  {
    if outcome.HashMismatch? && retries[0].load.Loaded? {
      var rest := AttemptOps(retries[0].outcome, retries[1..]);
      AttemptInStep(retries[0].outcome, retries[1..]);
      FollowFlag(false, LoadOps(retries[0].load) + rest);
      FollowLoaded(retries[0].load.addrs, rest);
      LoadedInStep(outcome, retries, FollowAttempt(rest), rest);
    } else {
      LastAttemptInStep(outcome, retries);
    }
  }

  lemma {:induction false} FollowBarrier(ops: seq<Collective>)
    ensures Follow([Barrier] + ops) == Then(BarrierCall, FollowAttempt(ops))
  {
    assert ([Barrier] + ops)[1..] == ops;
  }

  lemma {:induction false} BarrierInStep(outcome: Outcome, retries: seq<Retry>, f: Following, ops: seq<Collective>)
    requires Complete(outcome, retries) && InStep(f, ops, outcome, retries)
    ensures InStep(Then(BarrierCall, f), [Barrier] + ops, outcome, retries)
  {
    ShapesConcat([Barrier], ops);
    assert Shapes([Barrier]) == [BarrierCall];
    assert ([BarrierCall] + Shapes(ops)) + [BcastCall(SIZEOF_INT)] ==
        [BarrierCall] + (Shapes(ops) + [BcastCall(SIZEOF_INT)]);
  }

  /** Rank 0 and every other rank issue the same collectives and end the same
      way exactly when every failed attempt includes a hash mismatch and the
      group could always be read.  Otherwise rank 0 ends while the others wait
      in one more broadcast, for a group size that never comes. */
  lemma {:induction false} CollectivesInStep(outcome: Outcome, retries: seq<Retry>)
    requires Complete(outcome, retries)
    ensures var f, ops := Follow(RootOps(outcome, retries)), RootOps(outcome, retries);
            && (NoSilentFailure(outcome, retries) <==> f.calls == Shapes(ops))
            && f.view == LastView(outcome, retries)
            && (NoSilentFailure(outcome, retries) ==> f.ending == RootEnding(outcome, retries))
            && (!NoSilentFailure(outcome, retries) ==>
                  f.calls == Shapes(ops) + [BcastCall(SIZEOF_INT)] && f.ending == Blocked)
  {
    var ops := AttemptOps(outcome, retries);
    AttemptInStep(outcome, retries);
    FollowBarrier(ops);
    BarrierInStep(outcome, retries, FollowAttempt(ops), ops);
  }

  // ----- Growing the record of a start, attempt by attempt -----

  /** Every attempt so far ended in a hash mismatch: rank 0 will try again. */
  predicate Pending(outcome: Outcome, retries: seq<Retry>) {
    && outcome.HashMismatch?
    && forall i :: 0 <= i < |retries| ==> retries[i].load.Loaded? && retries[i].outcome.HashMismatch?
  }

  function RetryOps(r: Retry): seq<Collective> {
    LoadOps(r.load) + if r.load.Loaded? then [Bcast(SIZEOF_BOOL, Flag(r.outcome.Started?))] else []
  }

  lemma {:induction false} AttemptUnfolds(outcome: Outcome, retries: seq<Retry>)
    requires outcome.HashMismatch? && retries != [] && retries[0].load.Loaded?
    ensures AttemptOps(outcome, retries) ==
            [Bcast(SIZEOF_BOOL, Flag(false))] + (LoadOps(retries[0].load) + AttemptOps(retries[0].outcome,
                retries[1..]))
  {
  }

  lemma {:induction false} FirstRetry(outcome: Outcome, r: Retry)
    requires outcome.HashMismatch?
    ensures AttemptOps(outcome, [r]) == AttemptOps(outcome, []) + RetryOps(r)
  {
    assert [r][1..] == [];
    assert AttemptOps(outcome, []) == [Bcast(SIZEOF_BOOL, Flag(false))];
    if r.load.Loaded? {
      assert AttemptOps(r.outcome, []) == [Bcast(SIZEOF_BOOL, Flag(r.outcome.Started?))];
      AttemptUnfolds(outcome, [r]);
    }
  }

  lemma {:induction false} OneMoreAttempt(outcome: Outcome, retries: seq<Retry>, r: Retry)
    requires Pending(outcome, retries)
    ensures AttemptOps(outcome, retries + [r]) == AttemptOps(outcome, retries) + RetryOps(r)
    decreases |retries|
  {
    if retries == [] {
      assert retries + [r] == [r];
      FirstRetry(outcome, r);
    } else {
      assert (retries + [r])[1..] == retries[1..] + [r];
      OneMoreAttempt(retries[0].outcome, retries[1..], r);
      AttemptUnfolds(outcome, retries);
      AttemptUnfolds(outcome, retries + [r]);
    }
  }

  lemma {:induction false} LastAttempt(outcome: Outcome, retries: seq<Retry>, r: Retry)
    requires Pending(outcome, retries) && !(r.load.Loaded? && r.outcome.HashMismatch?)
    ensures Complete(outcome, retries + [r])
    ensures RootEnding(outcome, retries + [r]) == if r.load.Loaded? then Returned else Threw
    decreases |retries|
  {
    if retries != [] {
      assert (retries + [r])[1..] == retries[1..] + [r];
      LastAttempt(retries[0].outcome, retries[1..], r);
    } else {
      assert ([] + [r])[1..] == [];
    }
  }

  // ----- The program of the other ranks -----

  /** The communicator of rank 0, with the record of its calls. */
  class RootCommunicator {
    var ops: seq<Collective>

    method Call(c: Collective)
      modifies this
      ensures ops == old(ops) + [c]
    {
      ops := ops + [c];
    }
  }

  /** The communicator of a rank other than 0: it answers each call of this rank
      with the matching call of rank 0, as long as there is one. */
  class FollowerCommunicator {
    var incoming: seq<Collective>
    var issued: seq<Shape>

    constructor (fromRoot: seq<Collective>)
      ensures incoming == fromRoot && issued == []
    {
      incoming := fromRoot;
      issued := [];
    }

    /** One collective; None when rank 0 never joins it. */
    method Call(shape: Shape) returns (got: Option<Collective>)
      modifies this
      ensures issued == old(issued) + [shape]
      ensures if old(incoming) == [] || ShapeOf(old(incoming)[0]) != shape
              then got == None && incoming == old(incoming)
              else got == Some(old(incoming)[0]) && incoming == old(incoming)[1..]
    {
      issued := issued + [shape];
      if incoming == [] || ShapeOf(incoming[0]) != shape {
        got := None;
      } else {
        got := Some(incoming[0]);
        incoming := incoming[1..];
      }
    }
  }

  lemma {:induction false} TwoCalls(issued: seq<Shape>, a: Shape, b: Shape, more: seq<Shape>)
    ensures (issued + [a] + [b]) + more == issued + ([a] + ([b] + more))
  {
  }

  lemma {:induction false} FollowRead(ops: seq<Collective>, n: nat)
    requires |ops| >= 2 && ops[0] == Bcast(SIZEOF_INT, GroupSize(n)) && CarriesAddresses(ops[1], n)
    ensures FollowLoad(ops) ==
            Then(BcastCall(SIZEOF_INT), Then(BcastCall(n * SLOT),
                With(Unpacked(ops[1].payload.buf, n), FollowAttempt(ops[2..]))))
  {
  }

  /** makeDistributedPipelineHandle on a rank other than 0. */
  method MakeOnFollower(comm: FollowerCommunicator) returns (addrs: seq<string>, ending: Ending)
    modifies comm
    ensures ending.Returned? ==>
              && |old(comm.incoming)| >= 2 && comm.incoming == old(comm.incoming)[2..]
              && old(comm.incoming)[0] == Bcast(SIZEOF_INT, GroupSize(|addrs|))
              && CarriesAddresses(old(comm.incoming)[1], |addrs|)
              && addrs == Unpacked(old(comm.incoming)[1].payload.buf, |addrs|)
    ensures var f := FollowLoad(old(comm.incoming));
            if ending.Returned? then
              f == With(addrs, FollowAttempt(comm.incoming)).(calls := f.calls)
              && comm.issued + FollowAttempt(comm.incoming).calls == old(comm.issued) + f.calls
            else comm.issued == old(comm.issued) + f.calls && ending == f.ending && f.view == None
  {
    addrs := [];
    var got := comm.Call(BcastCall(SIZEOF_INT));
    if got.None? || !got.value.payload.GroupSize? {
      ending := Blocked;
      return;
    }
    var n := got.value.payload.n;
    if n < 0 {
      ending := Threw;
      return;
    }
    got := comm.Call(BcastCall(n * SLOT));
    if got.None? || !CarriesAddresses(got.value, n) {
      ending := Blocked;
    } else {
      addrs := UnpackAddresses(got.value.payload.buf, n);
      FollowRead(old(comm.incoming), n);
      TwoCalls(old(comm.issued), BcastCall(SIZEOF_INT), BcastCall(n * SLOT), FollowAttempt(comm.incoming).calls);
      assert comm.incoming == old(comm.incoming)[2..];
      ending := Returned;
    }
  }

  /** start on a rank other than 0; `pipelines` are the addresses of its handle. */
  method StartOnFollower(comm: FollowerCommunicator, before: seq<string>) returns (ending: Ending,
                         pipelines: seq<string>)
    requires comm.issued == []
    modifies comm
    ensures var f := Follow(old(comm.incoming));
            comm.issued == f.calls && ending == f.ending && pipelines == f.view.UnwrapOr(before)
  {
    pipelines := before;
    var got := comm.Call(BarrierCall);
    if got.None? {
      return Blocked, pipelines;
    }
    ghost var whole := Then(BarrierCall, FollowAttempt(comm.incoming));
    got := comm.Call(BcastCall(SIZEOF_BOOL));
    if got.None? || !got.value.payload.Flag? {
      return Blocked, pipelines;
    }
    var ok := got.value.payload.ok;
    ghost var seen: Option<seq<string>> := None;
    while !ok
      invariant pipelines == seen.UnwrapOr(before)
      invariant if ok then whole == Following(comm.issued, Returned, seen)
                else whole == Going(comm.issued, seen, FollowLoad(comm.incoming))
      decreases |comm.incoming|, !ok
    {
      var addrs, made := MakeOnFollower(comm);
      if !made.Returned? {
        return made, pipelines;
      }
      pipelines, seen := addrs, Some(addrs);
      ghost var here := comm.issued;
      ghost var next := FollowAttempt(comm.incoming);
      assert whole == Going(here, seen, next);
      got := comm.Call(BcastCall(SIZEOF_BOOL));
      if got.None? || !got.value.payload.Flag? {
        return Blocked, pipelines;
      }
      ok := got.value.payload.ok;
      if !ok { GoesOn(here, BcastCall(SIZEOF_BOOL), seen, FollowLoad(comm.incoming)); }
    }
    return Returned, pipelines;
  }

  /** All that a rank issues, when it has issued so much and goes on like f. */
  ghost function Going(issued: seq<Shape>, seen: Option<seq<string>>, f: Following): Following {
    Following(issued + f.calls, f.ending, Later(seen, f.view))
  }

  lemma {:induction false} GoesOn(issued: seq<Shape>, call: Shape, seen: Option<seq<string>>, f: Following)
    ensures Going(issued, seen, Then(call, f)) == Going(issued + [call], seen, f)
  {
  }

  /** If rank 0's last view consists of addresses that fit, all ranks end with it. */
  lemma {:induction false} OneView(outcome: Outcome, retries: seq<Retry>)
    requires Complete(outcome, retries) && retries != [] && RootEnding(outcome, retries).Returned?
    ensures var last := retries[|retries| - 1].load;
            last.Loaded? && (AllFit(last.addrs) ==> Follow(RootOps(outcome, retries)).view == Some(last.addrs))
  {
    CollectivesInStep(outcome, retries);
    LastIsLast(outcome, retries);
    var last := retries[|retries| - 1].load;
    if AllFit(last.addrs) { RoundTrip(last.addrs); }
  }

  lemma {:induction false} LastIsLast(outcome: Outcome, retries: seq<Retry>)
    requires Complete(outcome, retries) && retries != [] && RootEnding(outcome, retries).Returned?
    ensures var last := retries[|retries| - 1].load;
            last.Loaded? && LastView(outcome, retries) == Some(Read(last.addrs))
    decreases |retries|
  {
    if |retries| > 1 {
      LastIsLast(retries[0].outcome, retries[1..]);
    } else {
      assert LastView(retries[0].outcome, retries[1..]) == None;
    }
  }
}

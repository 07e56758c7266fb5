/** Handles on asynchronous requests: several handles share one request, and the
    last one to let go of it waits for it. */
module AsyncRequests {
  import opened Words

  /** The shared part of a request.  `uses` is the count of its shared_ptr. */
  class AsyncRequestImpl {
    var m_waited: bool
    var uses: nat
    ghost var runs: nat     // how often the wait callback was called
    ghost var throws: nat   // how many of these calls threw
    ghost const number: nat // its place in the order of construction

    constructor (ghost number: nat)
      ensures !m_waited && uses == 1 && runs == 0 && throws == 0 && this.number == number
    {
      this.number := number;
      m_waited := false;
      uses := 1;
      runs := 0;
      throws := 0;
    }
  }

  /** The live handles that refer to r. */
  ghost function Holders(live: set<AsyncRequest>, r: AsyncRequestImpl): set<AsyncRequest>
    reads live
  {
    set h | h in live && h.self == r
  }

  /** The state of one request: its count is the number of its handles, it was
      waited for if they are gone, and its callback ran once for each failure
      and once for good. */
  ghost predicate RequestOk(live: set<AsyncRequest>, r: AsyncRequestImpl)
    reads live, r
  {
    && r.uses == |Holders(live, r)|
    && (r.uses == 0 ==> r.m_waited)
    && r.runs == r.throws + if r.m_waited then 1 else 0
  }

  /** The callback of r was run if it had not been run for good, and threw or not. */
  ghost predicate Waited(r: AsyncRequestImpl, waited: bool, runs: nat, throws: nat, threw: bool)
    reads r
  {
    && r.m_waited == !threw
    && r.runs == runs + (if waited then 0 else 1)
    && r.throws == throws + (if threw then 1 else 0)
  }

  ghost predicate SameRuns(r: AsyncRequestImpl, waited: bool, runs: nat, throws: nat)
    reads r
  {
    r.m_waited == waited && r.runs == runs && r.throws == throws
  }

  ghost predicate Owned(live: set<AsyncRequest>, made: set<AsyncRequestImpl>)
    reads live, made
  {
    && (forall h :: h in live && h.self != null ==> h.self in made)
    && (forall r :: r in made ==> RequestOk(live, r))
  }

  class AsyncRequest {
    var self: AsyncRequestImpl?
    ghost const number: nat // its place in the order of construction

    constructor Empty(ghost number: nat)
      ensures self == null && this.number == number
    {
      self := null;
      this.number := number;
    }

    /** A handle on a request just sent. */
    constructor Make(ghost number: nat, ghost requestNumber: nat)
      ensures self != null && fresh(self) && this.number == number && self.number == requestNumber
      ensures !self.m_waited && self.uses == 1 && self.runs == 0 && self.throws == 0
    {
      self := new AsyncRequestImpl(requestNumber);
      this.number := number;
    }

    constructor Copy(other: AsyncRequest, ghost number: nat,
                     ghost live: set<AsyncRequest>, ghost made: set<AsyncRequestImpl>)
      requires Owned(live, made) && other in live
      modifies made
      ensures this.number == number
      ensures Owned(live + {this}, made) && self == other.self == old(other.self)
      ensures forall r :: r in made ==> SameRuns(r, old(r.m_waited), old(r.runs), old(r.throws))
    {
      self := null;
      this.number := number;
      new;
      EmptyHandle(live, made, this);
      other.HolderCounts(live, made);
      Share(other.self, live + {this}, made);
    }

    constructor Move(other: AsyncRequest, ghost number: nat,
                     ghost live: set<AsyncRequest>, ghost made: set<AsyncRequestImpl>)
      requires Owned(live, made) && other in live
      modifies other
      ensures this.number == number
      ensures Owned(live + {this}, made) && self == old(other.self) && other.self == null
    {
      self := null;
      this.number := number;
      new;
      EmptyHandle(live, made, this);
      TakeFrom(other, live + {this}, made);
    }

    lemma {:induction false} HolderCounts(live: set<AsyncRequest>, made: set<AsyncRequestImpl>)
      requires Owned(live, made) && this in live
      ensures self != null ==> self in made && self.uses > 0
    {
      if self != null {
        assert RequestOk(live, self) && this in Holders(live, self);
      }
    }

    /** A handle that holds nothing takes over what another one holds. */
    method TakeFrom(other: AsyncRequest, ghost live: set<AsyncRequest>, ghost made: set<AsyncRequestImpl>)
      requires Owned(live, made) && this in live && other in live && other != this && self == null
      modifies this, other
      ensures Owned(live, made) && self == old(other.self) && other.self == null
    {
      ghost var r0 := other.self;
      ghost var held := if r0 == null then {} else Holders(live, r0);
      self := other.self;
      other.self := null;
      if r0 != null {
        assert Holders(live, r0) == held - {other} + {this};
        SwapCount(held, other, this);
      }
      forall r | r in made && r != r0
        ensures RequestOk(live, r)
      {
        assert old(RequestOk(live, r));
        assert Holders(live, r) == old(Holders(live, r));
      }
    }

    /** wait: run the callback unless it was run for good; `throws` tells what
        the callback does. */
    method Wait(throws: bool, ghost live: set<AsyncRequest>, ghost made: set<AsyncRequestImpl>) returns (threw: bool)
      requires Owned(live, made) && this in live
      modifies made
      ensures Owned(live, made)
      ensures forall r :: r in made ==> r.uses == old(r.uses)
      ensures forall r :: r in made && r != self ==> unchanged(r)
      ensures threw <==> throws && self != null && !old(self.m_waited)
      ensures self != null ==> Waited(self, old(self.m_waited), old(self.runs), old(self.throws), threw)
    {
      threw := false;
      if self == null || self.m_waited {
        return;
      }
      self.runs := self.runs + 1;
      if throws {
        self.throws := self.throws + 1;
        threw := true;
      } else {
        self.m_waited := true;
      }
      forall r | r in made
        ensures RequestOk(live, r)
      {
        assert old(RequestOk(live, r)) && Holders(live, r) == old(Holders(live, r));
      }
    }

    /** Waiting before this handle lets go of its request. */
    method WaitIfLast(throws: bool, ghost live: set<AsyncRequest>, ghost made: set<AsyncRequestImpl>)
      returns (threw: bool)
      requires Owned(live, made) && this in live
      modifies made
      ensures Owned(live, made)
      ensures forall r :: r in made ==> r.uses == old(r.uses)
      ensures forall r :: r in made && r != self ==> unchanged(r)
      ensures threw <==> throws && self != null && self.uses == 1 && !old(self.m_waited)
      ensures self != null && self.uses == 1 ==>
                Waited(self, old(self.m_waited), old(self.runs), old(self.throws), threw)
      ensures self != null && self.uses != 1 ==> unchanged(self)
    {
      threw := false;
      if self != null && self.uses == 1 {
        threw := Wait(throws, live, made);
      }
    }

    /** The destructor.  A callback that throws there ends the program. */
    method Destroy(throws: bool, ghost live: set<AsyncRequest>, ghost made: set<AsyncRequestImpl>)
      returns (terminated: bool)
      requires Owned(live, made) && this in live
      modifies this, made
      ensures terminated <==> throws && old(self) != null && old(self.uses) == 1 && !old(self.m_waited)
      ensures !terminated ==> Owned(live - {this}, made) && self == null
      ensures old(self) != null && old(self.uses) == 1 ==>
                Waited(old(self), old(self.m_waited), old(self.runs), old(self.throws), terminated)
      ensures forall r :: r in made && !(r == old(self) && old(r.uses) == 1) ==>
                SameRuns(r, old(r.m_waited), old(r.runs), old(r.throws))
    {
      terminated := WaitIfLast(throws, live, made);
      if terminated {
        return;
      }
      Release(live, made);
    }

    /** The shared_ptr of this handle is reset. */
    method Release(ghost live: set<AsyncRequest>, ghost made: set<AsyncRequestImpl>)
      requires Owned(live, made) && this in live
      requires self != null && self.uses == 1 ==> self.m_waited
      modifies this, made
      ensures self == null && Owned(live, made) && Owned(live - {this}, made)
      ensures forall r :: r in made ==> SameRuns(r, old(r.m_waited), old(r.runs), old(r.throws))
    {
      ghost var r0 := self;
      ghost var held := if r0 == null then {} else Holders(live, r0);
      if self != null {
        assert RequestOk(live, self) && this in held;
        self.uses := self.uses - 1;
      }
      self := null;
      if r0 != null {
        assert Holders(live, r0) == held - {this};
      }
      forall r | r in made && r != r0
        ensures RequestOk(live, r)
      {
        assert old(RequestOk(live, r));
        assert Holders(live, r) == old(Holders(live, r));
      }
      GoneHandle(live, made, this);
    }

    /** A handle that held nothing takes a share of r. */
    method Share(r: AsyncRequestImpl?, ghost live: set<AsyncRequest>, ghost made: set<AsyncRequestImpl>)
      requires Owned(live, made) && this in live && self == null
      requires r != null ==> r in made && r.uses > 0
      modifies this, made
      ensures self == r && Owned(live, made)
      ensures forall q :: q in made ==> SameRuns(q, old(q.m_waited), old(q.runs), old(q.throws))
    {
      ghost var held := if r == null then {} else Holders(live, r);
      self := r;
      if r != null {
        r.uses := r.uses + 1;
        assert Holders(live, r) == held + {this};
      }
      forall q | q in made && q != r
        ensures RequestOk(live, q)
      {
        assert old(RequestOk(live, q));
        assert Holders(live, q) == old(Holders(live, q));
      }
    }

    /** Copy assignment; nothing happens when both refer to the same request. */
    method CopyAssign(other: AsyncRequest, throws: bool,
                      ghost live: set<AsyncRequest>, ghost made: set<AsyncRequestImpl>)
      returns (threw: bool)
      requires Owned(live, made) && this in live && other in live
      modifies this, made
      ensures Owned(live, made)
      ensures self == if threw then old(self) else old(other.self)
      ensures other.self == old(other.self) || other == this
      ensures old(self) == old(other.self) ==> !threw && forall r :: r in made ==> unchanged(r)
      ensures threw ==> throws && old(self) != null && old(self.uses) == 1 && !old(self.m_waited)
      ensures old(self) != null && old(self.uses) == 1 && old(self) != old(other.self) ==>
                && Waited(old(self), old(self.m_waited), old(self.runs), old(self.throws), threw)
                && threw == (throws && !old(self.m_waited))
      ensures forall r :: r in made && !(r == old(self) && old(r.uses) == 1) ==>
                SameRuns(r, old(r.m_waited), old(r.runs), old(r.throws))
    {
      threw := false;
      if this == other || self == other.self {
        return;
      }
      threw := WaitIfLast(throws, live, made);
      if threw {
        return;
      }
      Release(live, made);
      other.HolderCounts(live, made);
      Share(other.self, live, made);
    }

    /** Move assignment; nothing happens when both refer to the same request. */
    method MoveAssign(other: AsyncRequest, throws: bool,
                      ghost live: set<AsyncRequest>, ghost made: set<AsyncRequestImpl>)
      returns (threw: bool)
      requires Owned(live, made) && this in live && other in live
      modifies this, other, made
      ensures Owned(live, made)
      ensures self == if threw then old(self) else old(other.self)
      ensures other.self == if threw || old(self) == old(other.self) then old(other.self) else null
      ensures old(self) == old(other.self) ==> !threw && forall r :: r in made ==> unchanged(r)
      ensures threw ==> throws && old(self) != null && old(self.uses) == 1 && !old(self.m_waited)
      ensures old(self) != null && old(self.uses) == 1 && old(self) != old(other.self) ==>
                && Waited(old(self), old(self.m_waited), old(self.runs), old(self.throws), threw)
                && threw == (throws && !old(self.m_waited))
      ensures forall r :: r in made && !(r == old(self) && old(r.uses) == 1) ==>
                SameRuns(r, old(r.m_waited), old(r.runs), old(r.throws))
    {
      threw := false;
      if this == other || self == other.self {
        return;
      }
      threw := WaitIfLast(throws, live, made);
      if threw {
        return;
      }
      Release(live, made);
      TakeFrom(other, live, made);
    }
  }

  lemma {:induction false} SwapCount<T>(s: set<T>, x: T, y: T)
    requires x in s && y !in s
    ensures |s - {x} + {y}| == |s|
  {
  }

  lemma {:induction false} GoneHandle(live: set<AsyncRequest>, made: set<AsyncRequestImpl>, h: AsyncRequest)
    requires Owned(live, made) && h.self == null
    ensures Owned(live - {h}, made)
  {
    forall r | r in made
      ensures RequestOk(live - {h}, r)
    {
      assert RequestOk(live, r) && Holders(live - {h}, r) == Holders(live, r);
    }
  }

  /** A handle that refers to nothing does not matter. */
  lemma {:induction false} EmptyHandle(live: set<AsyncRequest>, made: set<AsyncRequestImpl>, h: AsyncRequest)
    requires Owned(live, made) && h.self == null
    ensures Owned(live + {h}, made)
  {
    forall r | r in made
      ensures RequestOk(live + {h}, r)
    {
      assert RequestOk(live, r) && Holders(live + {h}, r) == Holders(live, r);
    }
  }

  // ----- Any sequence of operations -----

  /** Handles are numbered in the order in which they were constructed. */
  datatype Op =
    | MakeOp
    | CopyOp(from: nat)
    | MoveOp(from: nat)
    | CopyAssignOp(h: nat, from: nat, throws: bool)
    | MoveAssignOp(h: nat, from: nat, throws: bool)
    | WaitOp(h: nat, throws: bool)
    | DestroyOp(h: nat, throws: bool)

  /** What became of a request: was it waited for, how often did its callback run,
      how often did that throw. */
  datatype Record = Record(waited: bool, runs: nat, throws: nat)

  /** The meaning of a program with handles: which request each handle refers to,
      which handles are not destroyed yet, and the record of every request. */
  datatype Ledger = Ledger(refs: seq<Option<nat>>, live: set<nat>, records: seq<Record>)

  const EMPTY_LEDGER := Ledger([], {}, [])

  function AfterWait(q: Record, throws: bool): Record {
    if q.waited then q else Record(!throws, q.runs + 1, q.throws + if throws then 1 else 0)
  }

  ghost predicate LedgerWf(s: Ledger) {
    && (forall h :: h in s.live ==> h < |s.refs|)
    && (forall h :: 0 <= h < |s.refs| && s.refs[h].Some? ==> s.refs[h].value < |s.records|)
  }

  /** No other handle refers to the same request. */
  ghost predicate Last(s: Ledger, h: nat)
    requires LedgerWf(s) && h in s.live
  {
    s.refs[h].Some? && forall g :: g in s.live && g != h ==> s.refs[g] != s.refs[h]
  }

  ghost function WaitOn(s: Ledger, h: nat, throws: bool): Ledger
    requires LedgerWf(s) && h in s.live
  {
    if s.refs[h].None? then s
    else s.(records := s.records[s.refs[h].value := AfterWait(s.records[s.refs[h].value], throws)])
  }

  /** Waiting by handle h now would throw. */
  ghost predicate WouldThrow(s: Ledger, h: nat, throws: bool)
    requires LedgerWf(s) && h in s.live
  {
    throws && s.refs[h].Some? && !s.records[s.refs[h].value].waited
  }

  /** What handle h does before it refers to something else. */
  ghost function LetGo(s: Ledger, h: nat, throws: bool): Ledger
    requires LedgerWf(s) && h in s.live
  {
    if Last(s, h) then WaitOn(s, h, throws) else s
  }

  ghost predicate Assigns(s: Ledger, h: nat, from: nat, throws: bool)
    requires LedgerWf(s) && h in s.live && from in s.live
  {
    s.refs[h] != s.refs[from] && !(Last(s, h) && WouldThrow(s, h, throws))
  }

  ghost function Assign(s: Ledger, h: nat, from: nat, throws: bool, moves: bool): Ledger
    requires LedgerWf(s) && h in s.live && from in s.live
  {
    if s.refs[h] == s.refs[from] then s
    else
      var t := LetGo(s, h, throws);
      if !Assigns(s, h, from, throws) then t
      else if moves then t.(refs := t.refs[h := s.refs[from]][from := None])
      else t.(refs := t.refs[h := s.refs[from]])
  }

  /** An operation that names a handle that is not live is skipped. */
  ghost function After(s: Ledger, op: Op): Ledger
    requires LedgerWf(s)
  {
    match op
    case MakeOp => Ledger(s.refs + [Some(|s.records|)], s.live + {|s.refs|}, s.records + [Record(false, 0, 0)])
    case CopyOp(from) => if from !in s.live then s else s.(refs := s.refs + [s.refs[from]], live := s.live + {|s.refs|})
    case MoveOp(from) =>
      if from !in s.live then s
      else s.(refs := s.refs[from := None] + [s.refs[from]], live := s.live + {|s.refs|})
    case CopyAssignOp(h, from, throws) =>
      if h in s.live && from in s.live then Assign(s, h, from, throws, false) else s
    case MoveAssignOp(h, from, throws) =>
      if h in s.live && from in s.live then Assign(s, h, from, throws, true) else s
    case WaitOp(h, throws) => if h in s.live then WaitOn(s, h, throws) else s
    case DestroyOp(h, throws) => if h in s.live then Drop(s, h, throws) else s
  }

  ghost function Drop(s: Ledger, h: nat, throws: bool): Ledger
    requires LedgerWf(s) && h in s.live
  {
    LetGo(s, h, throws).(live := s.live - {h})
  }

  /** A callback throws in a destructor: the program ends there. */
  ghost predicate Terminates(s: Ledger, op: Op)
    requires LedgerWf(s)
  {
    op.DestroyOp? && op.h in s.live && Last(s, op.h) && WouldThrow(s, op.h, op.throws)
  }

  /** A request has a handle, or it was waited for; its callback ran once for
      every time it threw, and once for good. */
  ghost predicate RecordOk(s: Ledger, r: nat)
    requires LedgerWf(s) && r < |s.records|
  {
    && (s.records[r].waited || exists h :: h in s.live && s.refs[h] == Some(r))
    && s.records[r].runs == s.records[r].throws + if s.records[r].waited then 1 else 0
  }

  ghost predicate LedgerOk(s: Ledger) {
    LedgerWf(s) && forall r :: 0 <= r < |s.records| ==> RecordOk(s, r)
  }

  predicate Throws(op: Op) {
    !op.MakeOp? && !op.CopyOp? && !op.MoveOp? && op.throws
  }

  ghost predicate NeverThrew(s: Ledger) {
    forall r :: 0 <= r < |s.records| ==> s.records[r].throws == 0
  }

  lemma {:induction false} WaitKeepsLedger(s: Ledger, h: nat, throws: bool)
    requires LedgerOk(s) && h in s.live
    ensures LedgerOk(WaitOn(s, h, throws))
  {
    forall r | 0 <= r < |s.records|
      ensures RecordOk(WaitOn(s, h, throws), r)
    {
      assert RecordOk(s, r);
    }
  }

  /** Handle h may refer to something else, or go, once its request has another
      handle or was waited for. */
  lemma {:induction false} LetGoKeepsLedger(s: Ledger, h: nat, throws: bool, r: nat)
    requires LedgerOk(s) && h in s.live && r < |s.records| && !(Last(s, h) && WouldThrow(s, h, throws))
    ensures LetGo(s, h, throws).records[r].waited || exists g :: g in s.live && g != h && s.refs[g] == Some(r)
  {
    assert RecordOk(s, r);
    if !s.records[r].waited {
      var g :| g in s.live && s.refs[g] == Some(r);
      if g == h && !Last(s, h) {
        var f :| f in s.live && f != h && s.refs[f] == s.refs[h];
      }
    }
  }

  /** An assignment, handle by handle and request by request. */
  lemma {:induction false} AssignFlat(s: Ledger, h: nat, from: nat, throws: bool, moves: bool)
    requires LedgerWf(s) && h in s.live && from in s.live
    ensures var t := Assign(s, h, from, throws, moves);
            && LedgerWf(t) && t.live == s.live && |t.refs| == |s.refs| && |t.records| == |s.records|
            && (forall g :: 0 <= g < |s.refs| ==>
                  t.refs[g] == RefAfter(s, h, from, g, Assigns(s, h, from, throws), moves))
            && (forall r :: 0 <= r < |s.records| ==>
                  t.records[r] == RecordAfter(s, h, r, s.refs[h] != s.refs[from] && Last(s, h), throws))
  {
  }

  lemma {:induction false} DestroyFlat(s: Ledger, h: nat, throws: bool)
    requires LedgerWf(s) && h in s.live
    ensures var t := Drop(s, h, throws);
            && LedgerWf(t) && t.live == s.live - {h} && t.refs == s.refs && |t.records| == |s.records|
            && (forall r :: 0 <= r < |s.records| ==> t.records[r] == RecordAfter(s, h, r, Last(s, h), throws))
  {
  }

  function RefAfter(s: Ledger, h: nat, from: nat, g: nat, assigns: bool, moves: bool): Option<nat>
    requires from < |s.refs| && g < |s.refs|
  {
    if !assigns then s.refs[g]
    else if moves && g == from then None
    else if g == h then s.refs[from]
    else s.refs[g]
  }

  function RecordAfter(s: Ledger, h: nat, r: nat, waits: bool, throws: bool): Record
    requires h < |s.refs| && r < |s.records|
  {
    if waits && s.refs[h] == Some(r) then AfterWait(s.records[r], throws) else s.records[r]
  }

  lemma {:induction false} AssignKeepsLedger(s: Ledger, h: nat, from: nat, throws: bool, moves: bool)
    requires LedgerOk(s) && h in s.live && from in s.live
    ensures LedgerOk(Assign(s, h, from, throws, moves))
  {
    if s.refs[h] != s.refs[from] {
      var t, u := LetGo(s, h, throws), Assign(s, h, from, throws, moves);
      WaitKeepsLedger(s, h, throws);
      if Assigns(s, h, from, throws) {
        forall r | 0 <= r < |u.records|
          ensures RecordOk(u, r)
        {
          assert RecordOk(t, r);
          LetGoKeepsLedger(s, h, throws, r);
          if g :| g in s.live && g != h && s.refs[g] == Some(r) {
            assert u.refs[if moves && g == from then h else g] == Some(r);
          }
        }
      }
    }
  }

  lemma {:induction false} DestroyKeepsLedger(s: Ledger, h: nat, throws: bool)
    requires LedgerOk(s) && h in s.live && !Terminates(s, DestroyOp(h, throws))
    ensures LedgerOk(After(s, DestroyOp(h, throws)))
  {
    var t, u := LetGo(s, h, throws), After(s, DestroyOp(h, throws));
    WaitKeepsLedger(s, h, throws);
    forall r | 0 <= r < |u.records|
      ensures RecordOk(u, r)
    {
      assert RecordOk(t, r);
      LetGoKeepsLedger(s, h, throws, r);
      if g :| g in s.live && g != h && s.refs[g] == Some(r) { assert g in u.live && u.refs[g] == Some(r); }
    }
  }

  lemma {:induction false} ConstructKeepsLedger(s: Ledger, op: Op)
    requires LedgerOk(s) && (op.MakeOp? || op.CopyOp? || op.MoveOp?)
    ensures LedgerOk(After(s, op))
  {
    var u := After(s, op);
    forall r | 0 <= r < |u.records|
      ensures RecordOk(u, r)
    {
      if r < |s.records| {
        assert RecordOk(s, r);
        if g :| g in s.live && s.refs[g] == Some(r) {
          assert u.refs[if op.MoveOp? && op.from == g then |s.refs| else g] == Some(r);
        }
      } else {
        assert u.refs[|s.refs|] == Some(r);
      }
    }
  }

  lemma {:induction false} OpKeepsLedger(s: Ledger, op: Op)
    requires LedgerOk(s) && !Terminates(s, op)
    ensures LedgerOk(After(s, op))
    ensures NeverThrew(s) && !Throws(op) ==> NeverThrew(After(s, op))
  {
    match op
    case CopyAssignOp(h, from, throws) =>
      if h in s.live && from in s.live { AssignKeepsLedger(s, h, from, throws, false); }
    case MoveAssignOp(h, from, throws) =>
      if h in s.live && from in s.live { AssignKeepsLedger(s, h, from, throws, true); }
    case WaitOp(h, throws) => if h in s.live { WaitKeepsLedger(s, h, throws); }
    case DestroyOp(h, throws) => if h in s.live { DestroyKeepsLedger(s, h, throws); }
    case _ => ConstructKeepsLedger(s, op);
  }

  /** The program went through these operations without ending in a destructor. */
  ghost predicate Survives(s: Ledger, ops: seq<Op>)
    requires LedgerWf(s)
    decreases |ops|
  {
    ops == [] || (!Terminates(s, ops[0]) && LedgerWf(After(s, ops[0])) && Survives(After(s, ops[0]), ops[1..]))
  }

  ghost function AfterAll(s: Ledger, ops: seq<Op>): Ledger
    requires LedgerWf(s) && Survives(s, ops)
    decreases |ops|
  {
    if ops == [] then s else AfterAll(After(s, ops[0]), ops[1..])
  }

  /** No request is dropped unwaited: over any sequence of operations, a request
      without a live handle had its callback run; if no callback throws, the
      program does not end early and each callback ran exactly once. */
  lemma {:induction false} NotDroppedUnwaited(s: Ledger, ops: seq<Op>)
    requires LedgerOk(s)
    ensures Survives(s, ops) ==> LedgerOk(AfterAll(s, ops))
    ensures NeverThrew(s) && (forall i :: 0 <= i < |ops| ==> !Throws(ops[i])) ==>
              Survives(s, ops) && NeverThrew(AfterAll(s, ops))
    decreases |ops|
  {
    if ops != [] && !Terminates(s, ops[0]) {
      OpKeepsLedger(s, ops[0]);
      NotDroppedUnwaited(After(s, ops[0]), ops[1..]);
    }
  }

  /** What that means for one request, from an empty program on. */
  lemma {:induction false} DroppedRequestFinished(ops: seq<Op>, r: nat)
    requires Survives(EMPTY_LEDGER, ops)
    requires var s := AfterAll(EMPTY_LEDGER, ops); r < |s.records| && forall h :: h in s.live ==>
        h < |s.refs| && s.refs[h] != Some(r)
    ensures var q := AfterAll(EMPTY_LEDGER, ops).records[r];
            q.waited && q.runs >= 1 && ((forall i :: 0 <= i < |ops| ==> !Throws(ops[i])) ==> q.runs == 1)
  {
    NotDroppedUnwaited(EMPTY_LEDGER, ops);
    assert RecordOk(AfterAll(EMPTY_LEDGER, ops), r);
  }

  // ----- The program itself -----

  /** A program with all the handles it constructed, and those not destroyed yet. */
  class Program {
    var handles: seq<AsyncRequest>
    var live: set<AsyncRequest>
    ghost var made: set<AsyncRequestImpl>
    ghost var requests: seq<AsyncRequestImpl>

    ghost predicate Valid()
      reads this, live, made
    {
      && Owned(live, made)
      && (forall h :: 0 <= h < |handles| ==> handles[h].number == h)
      && (forall x :: x in live ==> x.number < |handles| && handles[x.number] == x)
      && (forall r :: 0 <= r < |requests| ==> requests[r].number == r && requests[r] in made)
      && (forall x :: x in made ==> x.number < |requests| && requests[x.number] == x)
    }

    predicate IsLive(h: nat)
      reads this
    {
      h < |handles| && handles[h] in live
    }

    ghost function Request(r: Option<nat>): AsyncRequestImpl?
      reads this
    {
      if r.Some? && r.value < |requests| then requests[r.value] else null
    }

    /** The program is in the state that the ledger tells. */
    ghost predicate Mirrors(s: Ledger)
      requires Valid()
      reads this, live, made
    {
      && LedgerWf(s)
      && |handles| == |s.refs| && |requests| == |s.records|
      && (forall h :: 0 <= h < |handles| ==> (h in s.live <==> handles[h] in live))
      && (forall h :: 0 <= h < |handles| && handles[h] in live ==> handles[h].self == Request(s.refs[h]))
      && (forall r :: 0 <= r < |requests| ==> RecordOf(requests[r]) == s.records[r])
    }

    constructor ()
      ensures Valid() && Mirrors(EMPTY_LEDGER)
    {
      handles := [];
      live := {};
      made := {};
      requests := [];
    }

    /** The count of the shared pointer tells whether a handle is the last one. */
    lemma {:induction false} LastByCount(s: Ledger, h: nat)
      requires Valid() && Mirrors(s) && h in s.live
      ensures Last(s, h) <==> handles[h].self != null && handles[h].self.uses == 1
    {
      var x := handles[h];
      if s.refs[h].Some? {
        var holders := Holders(live, x.self);
        assert RequestOk(live, x.self) && x in holders;
        if Last(s, h) {
          forall y | y in holders
            ensures y == x
          {
            assert handles[y.number] == y && y.number in s.live;
          }
          assert holders == {x};
        } else {
          var g :| g in s.live && g != h && s.refs[g] == s.refs[h];
          assert handles[g] in holders && {x, handles[g]} <= holders;
          SubsetCount({x, handles[g]}, holders);
        }
      }
    }

    /** A new handle on a new request enters. */
    method Enter() returns (x: AsyncRequest)
      requires Valid()
      modifies this
      ensures Valid() && fresh(x) && x.self != null && fresh(x.self) && RecordOf(x.self) == Record(false, 0, 0)
      ensures handles == old(handles) + [x] && requests == old(requests) + [x.self]
      ensures live == old(live) + {x} && made == old(made) + {x.self}
    {
      x := new AsyncRequest.Make(|handles|, |requests|);
      MadeHandle(live, made, x);
      made, requests := made + {x.self}, requests + [x.self];
      handles, live := handles + [x], live + {x};
    }

    method Make(ghost s: Ledger) returns (x: AsyncRequest)
      requires Valid() && Mirrors(s)
      modifies this
      ensures Valid() && Mirrors(After(s, MakeOp))
      ensures fresh(x) && x.self != null && fresh(x.self)
      ensures live == old(live) + {x} && made == old(made) + {x.self}
    {
      x := Enter();
      forall g | 0 <= g < |handles| && handles[g] in live
        ensures handles[g].self == Request(After(s, MakeOp).refs[g])
      {
        if g < |s.refs| { assert old(handles[g].self) == old(Request(s.refs[g])); }
      }
    }

    method Copy(from: nat, ghost s: Ledger) returns (x: AsyncRequest)
      requires Valid() && Mirrors(s) && IsLive(from)
      modifies this, made
      ensures Valid() && Mirrors(After(s, CopyOp(from)))
      ensures fresh(x) && live == old(live) + {x} && made == old(made)
    {
      x := new AsyncRequest.Copy(handles[from], |handles|, live, made);
      handles, live := handles + [x], live + {x};
    }

    method Move(from: nat, ghost s: Ledger) returns (x: AsyncRequest)
      requires Valid() && Mirrors(s) && IsLive(from)
      modifies this, live
      ensures Valid() && Mirrors(After(s, MoveOp(from)))
      ensures fresh(x) && live == old(live) + {x} && made == old(made)
    {
      x := new AsyncRequest.Move(handles[from], |handles|, live, made);
      handles, live := handles + [x], live + {x};
      forall g | 0 <= g < |handles| && handles[g] in live
        ensures handles[g].self == Request(After(s, MoveOp(from)).refs[g])
      {
        if g < |s.refs| { assert old(handles[g].self) == Request(s.refs[g]); }
      }
    }

    method CopyAssign(h: nat, from: nat, throws: bool, ghost s: Ledger)
      requires Valid() && Mirrors(s) && IsLive(h) && IsLive(from)
      modifies live, made
      ensures Valid() && Mirrors(Assign(s, h, from, throws, false))
    {
      ghost var last, same := Last(s, h), s.refs[h] == s.refs[from];
      LastByCount(s, h);
      AssignFlat(s, h, from, throws, false);
      var x, y := handles[h], handles[from];
      var threw := x.CopyAssign(y, throws, live, made);
      forall g | 0 <= g < |handles| && handles[g] in live
        ensures handles[g].self == Request(RefAfter(s, h, from, g, !same && !threw, false))
      {
        assert old(handles[g].self) == Request(s.refs[g]);
        assert handles[g] == x ==> g == h;
        assert handles[g] == y ==> g == from;
      }
      forall r | 0 <= r < |requests|
        ensures RecordOf(requests[r]) == RecordAfter(s, h, r, !same && last, throws)
      {
        assert old(RecordOf(requests[r])) == s.records[r];
      }
    }

    method MoveAssign(h: nat, from: nat, throws: bool, ghost s: Ledger)
      requires Valid() && Mirrors(s) && IsLive(h) && IsLive(from)
      modifies live, made
      ensures Valid() && Mirrors(Assign(s, h, from, throws, true))
    {
      ghost var last, same := Last(s, h), s.refs[h] == s.refs[from];
      LastByCount(s, h);
      AssignFlat(s, h, from, throws, true);
      var x, y := handles[h], handles[from];
      var threw := x.MoveAssign(y, throws, live, made);
      forall g | 0 <= g < |handles| && handles[g] in live
        ensures handles[g].self == Request(RefAfter(s, h, from, g, !same && !threw, true))
      {
        assert old(handles[g].self) == Request(s.refs[g]);
        assert handles[g] == x ==> g == h;
        assert handles[g] == y ==> g == from;
      }
      forall r | 0 <= r < |requests|
        ensures RecordOf(requests[r]) == RecordAfter(s, h, r, !same && last, throws)
      {
        assert old(RecordOf(requests[r])) == s.records[r];
      }
    }

    method Wait(h: nat, throws: bool, ghost s: Ledger)
      requires Valid() && Mirrors(s) && IsLive(h)
      modifies live, made
      ensures Valid() && Mirrors(After(s, WaitOp(h, throws)))
    {
      var threw := handles[h].Wait(throws, live, made);
    }

    method Destroy(h: nat, throws: bool, ghost s: Ledger) returns (terminated: bool)
      requires Valid() && Mirrors(s) && IsLive(h)
      modifies this, live, made
      ensures terminated <==> Terminates(s, DestroyOp(h, throws))
      ensures !terminated ==> Valid() && Mirrors(Drop(s, h, throws))
      ensures made == old(made) && live <= old(live)
    {
      ghost var last := Last(s, h);
      LastByCount(s, h);
      DestroyFlat(s, h, throws);
      var x, alive := handles[h], live;
      live := live - {x};
      terminated := x.Destroy(throws, alive, made);
      forall r | 0 <= r < |requests|
        ensures RecordOf(requests[r]) == RecordAfter(s, h, r, last, throws)
      {
        assert old(RecordOf(requests[r])) == s.records[r];
      }
      forall g | 0 <= g < |handles| && handles[g] in live
        ensures g != h && handles[g].self == Request(s.refs[g])
      {
        assert old(handles[g].self) == Request(s.refs[g]);
      }
    }

    /** One operation; those that name a handle that is not live are skipped. */
    method Step(op: Op, ghost s: Ledger) returns (terminated: bool)
      requires Valid() && Mirrors(s)
      modifies this, live, made
      ensures terminated <==> Terminates(s, op)
      ensures !terminated ==> Valid() && Mirrors(After(s, op))
      ensures fresh(made - old(made)) && fresh(live - old(live))
    {
      terminated := false;
      if op.MakeOp? {
        var x := Make(s);
      } else if op.CopyOp? && IsLive(op.from) {
        var x := Copy(op.from, s);
      } else if op.MoveOp? && IsLive(op.from) {
        var x := Move(op.from, s);
      } else if op.CopyAssignOp? && IsLive(op.h) && IsLive(op.from) {
        CopyAssign(op.h, op.from, op.throws, s);
      } else if op.MoveAssignOp? && IsLive(op.h) && IsLive(op.from) {
        MoveAssign(op.h, op.from, op.throws, s);
      } else if op.WaitOp? && IsLive(op.h) {
        Wait(op.h, op.throws, s);
      } else if op.DestroyOp? && IsLive(op.h) {
        terminated := Destroy(op.h, op.throws, s);
      }
    }

    /** Any sequence of operations leaves the program as the ledger tells, unless a
        callback threw in a destructor and ended it. */
    method Run(ops: seq<Op>, ghost s: Ledger) returns (terminated: bool)
      requires Valid() && LedgerOk(s) && Mirrors(s)
      modifies this, live, made
      ensures !terminated <==> Survives(s, ops)
      ensures !terminated ==> Valid() && Mirrors(AfterAll(s, ops))
    {
      terminated := false;
      ghost var at := s;
      assert ops[0..] == ops;
      for i := 0 to |ops|
        invariant Valid() && LedgerOk(at) && Mirrors(at)
        invariant Survives(s, ops) <==> Survives(at, ops[i..])
        invariant Survives(s, ops) ==> AfterAll(s, ops) == AfterAll(at, ops[i..])
        invariant fresh(made - old(made)) && fresh(live - old(live))
      {
        assert ops[i..][0] == ops[i] && ops[i..][1..] == ops[i + 1..];
        terminated := Step(ops[i], at);
        if terminated {
          return;
        }
        OpKeepsLedger(at, ops[i]);
        at := After(at, ops[i]);
      }
    }
  }

  lemma {:induction false} SubsetCount<T>(a: set<T>, b: set<T>)
    requires a <= b
    ensures |a| <= |b|
  {
    assert b == a + (b - a);
  }

  ghost function RecordOf(r: AsyncRequestImpl): Record
    reads r
  {
    Record(r.m_waited, r.runs, r.throws)
  }

  lemma {:induction false} MadeHandle(live: set<AsyncRequest>, made: set<AsyncRequestImpl>, x: AsyncRequest)
    requires Owned(live, made) && x !in live && x.self != null && x.self !in made
    requires !x.self.m_waited && x.self.uses == 1 && x.self.runs == 0 && x.self.throws == 0
    ensures Owned(live + {x}, made + {x.self})
  {
    assert Holders(live + {x}, x.self) == {x};
    forall r | r in made
      ensures RequestOk(live + {x}, r)
    {
      assert RequestOk(live, r) && Holders(live + {x}, r) == Holders(live, r);
    }
  }
}

/** Playing a list of steps, and waiting for several things one after the other,
    whatever the steps are. */
module Folds {

  function Fold<S, I>(f: (S, I) -> S, s: S, items: seq<I>): S {
    if items == [] then s else f(Fold(f, s, items[..|items| - 1]), items[|items| - 1])
  }

  lemma {:induction false} FoldSnoc<S, I>(f: (S, I) -> S, s: S, items: seq<I>, item: I)
    ensures Fold(f, s, items + [item]) == f(Fold(f, s, items), item)
  {
    assert (items + [item])[..|items|] == items;
  }

  lemma {:induction false} FoldConcat<S, I>(f: (S, I) -> S, s: S, items: seq<I>, more: seq<I>)
    ensures Fold(f, s, items + more) == Fold(f, Fold(f, s, items), more)
    decreases |more|
  {
    if more == [] {
      assert items + more == items;
    } else {
      var front, last := more[..|more| - 1], more[|more| - 1];
      assert items + more == (items + front) + [last];
      FoldSnoc(f, s, items + front, last);
      FoldConcat(f, s, items, front);
    }
  }

  ghost predicate KeepsAt<S, I>(f: (S, I) -> S, ok: S -> bool, s: S, i: I) {
    ok(s) ==> ok(f(s, i))
  }

  /** Every step keeps ok. */
  ghost predicate Keeps<S(!new), I(!new)>(f: (S, I) -> S, ok: S -> bool) {
    forall s, i :: KeepsAt(f, ok, s, i)
  }

  lemma {:induction false} FoldKeeps<S(!new), I(!new)>(f: (S, I) -> S, ok: S -> bool, s: S, items: seq<I>)
    requires Keeps(f, ok) && ok(s)
    ensures ok(Fold(f, s, items))
  {
    if items != [] {
      FoldKeeps(f, ok, s, items[..|items| - 1]);
      assert KeepsAt(f, ok, Fold(f, s, items[..|items| - 1]), items[|items| - 1]);
    }
  }

  /** ... and then three steps that drive j to its end. */
  function Until<I>(items: seq<I>, drive: I): seq<I> {
    items + [drive] + [drive] + [drive]
  }

  /** n things are waited for, one after the other; before each of them, anything
      happens, and then it is driven to its end. */
  function Schedule<I>(before: nat -> seq<I>, drive: nat -> I, n: nat): seq<I> {
    if n == 0 then [] else Until(Schedule(before, drive, n - 1) + before(n - 1), drive(n - 1))
  }

  ghost predicate EndsAt<S, I>(f: (S, I) -> S, ok: S -> bool, ended: (S, nat) -> bool, drive: I, j: nat, s: S) {
    ok(s) ==> ended(f(f(f(s, drive), drive), drive), j)
  }

  /** Driving j ends it. */
  ghost predicate Ends<S(!new), I(!new)>(f: (S, I) -> S, ok: S -> bool, ended: (S, nat) -> bool, drive: I, j: nat) {
    forall s :: EndsAt(f, ok, ended, drive, j, s)
  }

  ghost predicate StepsDown<S, I>(f: (S, I) -> S, ok: S -> bool, left: S -> nat, drive: I, s: S) {
    ok(s) ==> ok(f(s, drive)) && (left(f(s, drive)) < left(s) || left(f(s, drive)) == 0)
  }

  /** Three steps are enough if at most three are left and each takes one away. */
  lemma {:induction false} ThreeSteps<S(!new), I>(f: (S, I) -> S, ok: S -> bool, left: S -> nat, drive: I, s: S)
    requires ok(s) && left(s) <= 3 && forall t :: StepsDown(f, ok, left, drive, t)
    ensures left(f(f(f(s, drive), drive), drive)) == 0
  {
    var once := f(s, drive);
    var twice := f(once, drive);
    assert StepsDown(f, ok, left, drive, s);
    assert StepsDown(f, ok, left, drive, once);
    assert StepsDown(f, ok, left, drive, twice);
  }

  ghost predicate StaysAt<S, I>(f: (S, I) -> S, ended: (S, nat) -> bool, s: S, i: I, j: nat) {
    ended(s, j) ==> ended(f(s, i), j)
  }

  /** What ended has ended for good. */
  ghost predicate ForGood<S(!new), I(!new)>(f: (S, I) -> S, ended: (S, nat) -> bool) {
    forall s, i, j: nat :: StaysAt(f, ended, s, i, j)
  }

  lemma {:induction false} StaysEnded<S(!new), I(!new)>(f: (S, I) -> S, ended: (S, nat) -> bool, s: S, items: seq<I>,
                                        j: nat)
    requires ForGood(f, ended) && ended(s, j)
    ensures ended(Fold(f, s, items), j)
  {
    if items != [] {
      StaysEnded(f, ended, s, items[..|items| - 1], j);
      assert StaysAt(f, ended, Fold(f, s, items[..|items| - 1]), items[|items| - 1], j);
    }
  }

  lemma {:induction false} UntilEnds<S(!new), I(!new)>(f: (S, I) -> S, ok: S -> bool, ended: (S, nat) -> bool,
                                    s: S, items: seq<I>, drive: I, j: nat)
    requires Keeps(f, ok) && ok(s) && Ends(f, ok, ended, drive, j)
    ensures ended(Fold(f, s, Until(items, drive)), j)
  {
    FoldKeeps(f, ok, s, items);
    FoldSnoc(f, s, items, drive);
    FoldSnoc(f, s, items + [drive], drive);
    FoldSnoc(f, s, items + [drive] + [drive], drive);
    assert EndsAt(f, ok, ended, drive, j, Fold(f, s, items));
  }

  lemma {:induction false} StillEnded<S(!new), I(!new)>(f: (S, I) -> S, ended: (S, nat) -> bool, s: S, items: seq<I>,
                                        more: seq<I>, j: nat)
    requires ForGood(f, ended) && ended(Fold(f, s, items), j)
    ensures ended(Fold(f, s, items + more), j)
  {
    FoldConcat(f, s, items, more);
    StaysEnded(f, ended, Fold(f, s, items), more, j);
  }

  /** Thing j has ended when all n were waited for. */
  lemma {:induction false} ScheduleEnds<S(!new), I(!new)>(f: (S, I) -> S, ok: S -> bool, ended: (S, nat) -> bool,
                                                          s: S, before: nat -> seq<I>, drive: nat -> I, n: nat, j: nat)
    requires Keeps(f, ok) && ok(s) && ForGood(f, ended)
    requires j < n && Ends(f, ok, ended, drive(j), j)
    ensures ended(Fold(f, s, Schedule(before, drive, n)), j)
  {
    var sofar, last := Schedule(before, drive, n - 1), before(n - 1);
    if j == n - 1 {
      UntilEnds(f, ok, ended, s, sofar + last, drive(n - 1), n - 1);
    } else {
      ScheduleEnds(f, ok, ended, s, before, drive, n - 1, j);
      StillEnded(f, ended, s, sofar, Until(last, drive(n - 1)), j);
      assert Until(sofar + last, drive(n - 1)) == sofar + Until(last, drive(n - 1));
    }
  }
}

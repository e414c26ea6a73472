/** Replaying a log in another order, on the boards that satisfy an invariant `good`. */
module Reordering {
  import opened Packages
  import opened Boards
  import opened Commands

  ghost predicate Keeps(good: Board -> bool, p: Package) {
    forall m {:trigger Apply(p, m)} | good(m) :: good(Apply(p, m))
  }

  ghost predicate CommuteOn(good: Board -> bool, p: Package, q: Package) {
    forall m {:trigger Apply(p, Apply(q, m))} {:trigger Apply(q, Apply(p, m))}
      | good(m) :: Apply(p, Apply(q, m)) == Apply(q, Apply(p, m))
  }

  ghost predicate AllKeep(good: Board -> bool, log: seq<Package>) {
    forall i | 0 <= i < |log| :: Keeps(good, log[i])
  }

  ghost predicate AllCommute(good: Board -> bool, log: seq<Package>) {
    forall i, j | 0 <= i < j < |log| :: CommuteOn(good, log[i], log[j])
  }

  lemma {:induction false} ReplayKeeps(good: Board -> bool, log: seq<Package>, m: Board)
    requires good(m) && AllKeep(good, log)
    ensures good(Replay(log, m))
  {
    if log != [] {
      assert Keeps(good, log[0]);
      ReplayKeeps(good, log[1..], Apply(log[0], m));
    }
  }

  /** A package that commutes with every package of a log can come before the log or after it. */
  lemma {:induction false} Swap(good: Board -> bool, log: seq<Package>, p: Package, m: Board)
    requires good(m) && AllKeep(good, log)
    requires forall i | 0 <= i < |log| :: CommuteOn(good, log[i], p)
    ensures Replay(log, Apply(p, m)) == Apply(p, Replay(log, m))
  {
    if log != [] {
      assert CommuteOn(good, log[0], p) && Keeps(good, log[0]);
      assert forall i | 0 <= i < |log[1..]| :: log[1..][i] == log[i + 1];
      Swap(good, log[1..], p, Apply(log[0], m));
    }
  }

  function Without<T>(s: seq<T>, at: nat): seq<T>
    requires at < |s|
  {
    s[..at] + s[at + 1..]
  }

  /** Taking one package out of turn, before the ones that it commutes with. */
  lemma OutOfTurn(good: Board -> bool, log: seq<Package>, at: nat, m: Board)
    requires at < |log| && good(m) && AllKeep(good, log) && AllCommute(good, log)
    ensures Replay(Without(log, at), Apply(log[at], m)) == Replay(log, m)
  {
    var before, p, after := log[..at], log[at], log[at + 1..];
    assert log == before + ([p] + after);
    assert ([p] + after)[1..] == after;
    ReplayConcat(before, [p] + after, m);
    ReplayConcat(before, after, Apply(p, m));
    Swap(good, before, p, m);
  }

  /** A package of a commuting log has nothing left to do on the log's result, unless it is an undo. */
  lemma Absorbed(good: Board -> bool, log: seq<Package>, at: nat, m: Board)
    requires at < |log| && good(m) && AllKeep(good, log) && AllCommute(good, log)
    requires !log[at].Undo?
    ensures Apply(log[at], Replay(log, m)) == Replay(log, m)
  {
    var before, p, after := log[..at], log[at], log[at + 1..];
    assert log == before + ([p] + after);
    assert ([p] + after)[1..] == after;
    ReplayConcat(before, [p] + after, m);
    ReplayKeeps(good, before, m);
    var there := Replay(before, m);
    forall i | 0 <= i < |after|
      ensures CommuteOn(good, after[i], p)
    {
      assert CommuteOn(good, log[at], log[at + 1 + i]);
      assert after[i] == log[at + 1 + i];
    }
    assert AllKeep(good, after) by {
      forall i | 0 <= i < |after| ensures Keeps(good, after[i]) { assert Keeps(good, log[at + 1 + i]); }
    }
    Swap(good, after, p, there);
    ApplyTwice(p, Replay(after, there));
  }

  /** No undo of the log finds an item of its user on the board. */
  ghost predicate UndosIdle(log: seq<Package>, m: Board) {
    forall i | 0 <= i < |log| && log[i].Undo? :: OwnedIds(m, log[i].user) == {}
  }

  /**
   Replaying a commuting log on its own result changes nothing if and only if
   every user who undid something in the log is left with nothing to undo.
   */
  lemma ReplayedTwice(good: Board -> bool, log: seq<Package>, m: Board)
    requires good(m) && AllKeep(good, log) && AllCommute(good, log)
    ensures var once := Replay(log, m);
            Replay(log, once) == once <==> UndosIdle(log, once)
  {
    var once := Replay(log, m);
    ReplayKeeps(good, log, m);
    forall i | 0 <= i < |log| && !log[i].Undo?
      ensures Apply(log[i], once) == once
    {
      Absorbed(good, log, i, m);
    }
    assert log == log[..|log|];
    OnlyUndosAct(good, log, 0, once);
  }

  /** What is idle on a board is idle once another package of the log has been applied. */
  lemma StillIdle(good: Board -> bool, log: seq<Package>, at: nat, m: Board)
    requires at < |log| && good(m) && AllCommute(good, log)
    requires forall i | 0 <= i < |log| && !log[i].Undo? :: Apply(log[i], m) == m
    ensures forall i | 0 <= i < |log| && !log[i].Undo? :: Apply(log[i], Apply(log[at], m)) == Apply(log[at], m)
  {
    hide Apply;
    forall i | 0 <= i < |log| && !log[i].Undo?
      ensures Apply(log[i], Apply(log[at], m)) == Apply(log[at], m)
    {
      assert i < at ==> CommuteOn(good, log[i], log[at]);
      assert at < i ==> CommuteOn(good, log[at], log[i]);
    }
  }

  lemma UndosIdleFirst(log: seq<Package>, from: nat, m: Board)
    requires from < |log|
    ensures UndosIdle(log[from..], m)
       <==> (log[from].Undo? ==> OwnedIds(m, log[from].user) == {}) && UndosIdle(log[from + 1..], m)
  {
    var all, rest := log[from..], log[from + 1..];
    assert forall i | 0 <= i < |rest| :: rest[i] == all[i + 1];
    assert forall i | 0 < i < |all| :: all[i] == rest[i - 1];
  }

  /** If only undos can still act, a replay removes an item exactly when one of the undos finds one. */
  lemma {:induction false} OnlyUndosAct(good: Board -> bool, log: seq<Package>, from: nat, m: Board)
    requires from <= |log| && good(m) && AllKeep(good, log) && AllCommute(good, log)
    requires forall i | 0 <= i < |log| && !log[i].Undo? :: Apply(log[i], m) == m
    ensures |Replay(log[from..], m)| <= |m|
    ensures UndosIdle(log[from..], m) ==> Replay(log[from..], m) == m
    ensures !UndosIdle(log[from..], m) ==> |Replay(log[from..], m)| < |m|
    decreases |log| - from
  {
    if from < |log| {
      var p, next := log[from], Apply(log[from], m);
      assert log[from..][1..] == log[from + 1..];
      assert Keeps(good, p);
      UndosIdleFirst(log, from, m);
      if p.Undo? {
        UndoIdle(m, p.user);
        StillIdle(good, log, from, m);
      }
      hide UndosIdle, Apply, AllKeep, AllCommute;
      OnlyUndosAct(good, log, from + 1, next);
    }
  }
}

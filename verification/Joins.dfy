/** Clients that join while commands are in flight: exactly when they end with the server's board. */
module Joins {
  import opened Packages
  import opened OrderedKeys
  import opened Boards
  import opened Commands
  import opened Reordering
  import opened Protocol
  import opened Invariants
  import opened Convergence
  import opened Agreement
  import opened Races

  lemma FlightShrinks(s: State, at: nat, good: Board -> bool)
    requires at < |s.pending| && FlightCommutes(s, good)
    ensures FlightCommutes(Sent(s, at), good)
  {
    var s' := Sent(s, at);
    forall i | 0 <= i < |s'.pending|
      ensures Pending(s')[i] == Pending(s)[if i < at then i else i + 1]
    {
    }
  }

  /** However the flight lands, it adds to the client's board what it would have added in order. */
  lemma LandsSent(s: State, at: nat, r: Replica, good: Board -> bool)
    requires at < |s.pending| && good(View(r)) && FlightCommutes(s, good)
    ensures var t, q := Sent(s, at), r.(channel := r.channel + [s.pending[at].pkg]);
            && good(View(q)) && FlightCommutes(t, good)
            && Replay(Pending(t), View(q)) == Replay(Pending(s), View(r))
  {
    hide View, Replay, Apply, AllCommute, AllKeep;
    var p := Pending(s)[at];
    assert Pending(Sent(s, at)) == Without(Pending(s), at);
    ViewSent(r, p);
    OutOfTurn(good, Pending(s), at, View(r));
    FlightShrinks(s, at, good);
    KeptOne(good, Pending(s), at);
  }

  lemma LandsStep(s: State, step: Step, u: int, good: Board -> bool)
    requires Enabled(s, step) && u in s.replicas && u < s.nextUser
    requires good(View(s.replicas[u])) && FlightCommutes(s, good)
    requires step != Disconnect(u) && step != Exit(u) && step != Reconnect(u) && !step.Execute?
    ensures var t := Next(s, step);
            && u in t.replicas && u < t.nextUser && good(View(t.replicas[u])) && FlightCommutes(t, good)
            && t.board == s.board
            && Replay(Pending(t), View(t.replicas[u])) == Replay(Pending(s), View(s.replicas[u]))
  {
    hide View, Replay, Apply, NewReplica, FlightCommutes;
    ViewStep(s, step, u);
    if step.Broadcast? {
      LandsSent(s, step.at, s.replicas[u], good);
    } else {
      assert Next(s, step).pending == s.pending;
      SameFlight(s, Next(s, step), good);
    }
  }

  lemma SameFlight(s: State, t: State, good: Board -> bool)
    requires t.pending == s.pending && FlightCommutes(s, good)
    ensures FlightCommutes(t, good)
  {
  }

  lemma KeptOne(good: Board -> bool, log: seq<Package>, at: nat)
    requires AllKeep(good, log) && at < |log|
    ensures Keeps(good, log[at])
  {
  }

  lemma {:induction false} Landed(s: State, steps: seq<Step>, u: int, good: Board -> bool)
    requires u in s.replicas && u < s.nextUser && good(View(s.replicas[u])) && FlightCommutes(s, good)
    requires Run(s, steps) && Stays(steps, u) && After(s, steps).executed == s.executed
    ensures var t := After(s, steps);
            && u in t.replicas && t.board == s.board
            && Replay(Pending(t), View(t.replicas[u])) == Replay(Pending(s), View(s.replicas[u]))
    decreases |steps|
  {
    if steps != [] {
      var next := Next(s, steps[0]);
      assert Enabled(s, steps[0]) && After(s, steps) == After(next, steps[1..]);
      LogsGrow(next, steps[1..]);
      BoardStep(s, steps[0]);
      assert forall i | 0 <= i < |steps[1..]| :: steps[1..][i] == steps[i + 1];
      hide FlightCommutes, View, Replay, Pending, Enabled, Next, Apply, Run, After;
      LandsStep(s, steps[0], u, good);
      Landed(next, steps[1..], u, good);
    }
  }

  /**
   A client joins while commands are in flight that commute and that made the server's board out of some board `m`
   (with logs in sync, the one of the broadcast log). In every run that lands them, in whatever order, it ends with the
   server's board if and only if no undo among them finds an item on the board that it loaded.
   */
  lemma JoinRunExactly(s: State, m: Board, join: Step, u: int, steps: seq<Step>, good: Board -> bool)
    requires UsersKnown(s) && good(m) && Replay(Pending(s), m) == s.board && FlightCommutes(s, good)
    requires Enabled(s, join) && Joins(s, join, u)
    requires Run(Next(s, join), steps) && Stays(steps, u) && After(Next(s, join), steps).executed == s.executed
    ensures var t := After(Next(s, join), steps);
            && u in t.replicas
            && (t.pending == [] && Drained(t.replicas[u]) ==>
                  (t.replicas[u].list == t.board <==> UndosIdle(Pending(s), s.board)))
  {
    hide Run, After, Replay, Apply, UndosIdle;
    JoinExactly(s, m, good);
    var next := Next(s, join);
    assert next.replicas[u] == NewReplica(s) && next.pending == s.pending && next.board == s.board;
    Landed(next, steps, u, good);
    var t := After(next, steps);
    if t.pending == [] && Drained(t.replicas[u]) {
      assert t.replicas[u].queue + t.replicas[u].channel == [];
      NothingToReplay(View(t.replicas[u]));
      NothingToReplay(t.replicas[u].list);
    }
  }

  /** Such a run exists from every state. */
  lemma JoinLands(s: State, m: Board, join: Step, u: int, good: Board -> bool) returns (steps: seq<Step>)
    requires UsersKnown(s) && good(m) && Replay(Pending(s), m) == s.board && FlightCommutes(s, good)
    requires Enabled(s, join) && Joins(s, join, u)
    ensures Run(Next(s, join), steps)
    ensures var t := After(Next(s, join), steps);
            Quiescent(t) && u in t.replicas && (t.replicas[u].list == t.board <==> UndosIdle(Pending(s), s.board))
  {
    hide Run, After, Replay, Apply, UndosIdle;
    var next := Next(s, join);
    assert u in next.replicas && next.executed == s.executed;
    steps := Settle(next);
    assert Stays(steps, u);
    JoinRunExactly(s, m, join, u, steps, good);
  }

  lemma NothingToReplay(m: Board)
    ensures Replay([], m) == m
  {
  }

  /**
   A client joins while just an undo is in flight that was executed on board `m`: in every run that lands it, the client
   ends with the server's board if and only if the user owned one item at most.
   */
  lemma UndoJoinExactly(s: State, m: Board, owner: int, join: Step, u: int, steps: seq<Step>)
    requires Inv(s) && |s.pending| == 1 && s.pending[0].pkg == Undo(owner)
    requires Keyed(m) && s.board == Apply(Undo(owner), m)
    requires Enabled(s, join) && Joins(s, join, u)
    requires Run(Next(s, join), steps) && Stays(steps, u) && After(Next(s, join), steps).executed == s.executed
    ensures var t := After(Next(s, join), steps);
            && u in t.replicas
            && (t.pending == [] && Drained(t.replicas[u]) ==>
                  (t.replicas[u].list == t.board <==> |OwnedIds(m, owner)| <= 1))
  {
    hide Run, After, Apply, FlightCommutes, Enabled, Next;
    OneInFlight(s, m, owner);
    JoinRunExactly(s, m, join, u, steps, KeyedBoards());
    IdleUndo(owner, s.board);
    OneLess(m, owner);
  }

  /** Such a run exists from every reachable state: a user undoes, and a client joins before the undo is broadcast. */
  lemma UndoJoinRun(before: seq<Step>, u: int, owner: int) returns (steps: seq<Step>)
    requires Run(INIT, before)
    requires var s := After(INIT, before); s.pending == [] && u in s.handlers && s.handlers[u].buffer == []
    ensures Run(After(INIT, before), steps)
    ensures var s, t := After(INIT, before), After(After(INIT, before), steps);
            && Quiescent(t) && s.nextUser in t.replicas
            && (t.replicas[s.nextUser].list == t.board <==> |OwnedIds(s.board, owner)| <= 1)
  {
    hide Run, After, Replay, Apply, UndosIdle, Quiescent, FlightCommutes, Inv;
    var s := After(INIT, before);
    InvInit();
    InvAlways(INIT, before);
    var undo := Perform(s, u, Undo(owner));
    var a := After(s, undo);
    InvAlways(s, undo);
    BoardKeyed(s);
    OneInFlight(a, s.board, owner);
    var rest := JoinLands(a, s.board, Connect, a.nextUser, KeyedBoards());
    RunMore(a, Connect, rest);
    RunConcat(s, undo, [Connect] + rest);
    steps := undo + ([Connect] + rest);
    IdleUndo(owner, a.board);
    OneLess(s.board, owner);
  }

  lemma BoardKeyed(s: State)
    requires Inv(s)
    ensures Keyed(s.board)
  {
  }

  lemma OneInFlight(s: State, m: Board, owner: int)
    requires Inv(s) && |s.pending| == 1 && s.pending[0].pkg == Undo(owner)
    requires Keyed(m) && s.board == Apply(Undo(owner), m)
    ensures UsersKnown(s) && Pending(s) == [Undo(owner)] && Replay(Pending(s), m) == s.board
    ensures FlightCommutes(s, KeyedBoards())
  {
    assert [Undo(owner)][1..] == [];
    forall n: Board | Keyed(n) ensures Keyed(Apply(Undo(owner), n)) { ApplyKeepsKeyed(Undo(owner), n); }
  }

  lemma IdleUndo(owner: int, m: Board)
    ensures UndosIdle([Undo(owner)], m) <==> OwnedIds(m, owner) == {}
  {
    assert [Undo(owner)][0].Undo?;
  }

  lemma OneLess(m: Board, owner: int)
    ensures OwnedIds(Apply(Undo(owner), m), owner) == {} <==> |OwnedIds(m, owner)| <= 1
  {
    var mine := OwnedIds(m, owner);
    if mine != {} {
      var left := mine - {Greatest(mine)};
      assert OwnedIds(Apply(Undo(owner), m), owner) == left && |left| == |mine| - 1;
    }
  }
}

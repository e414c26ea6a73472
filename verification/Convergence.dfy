/**
 When the clients' boards end equal to the server's.

 One invariant does the work: replaying the pending commands on what a client will hold once it has drained gives the
 server's board. It is stated for any set `good` of boards that the commands keep.
 */
module Convergence {
  import opened Packages
  import opened Boards
  import opened Commands
  import opened Reordering
  import opened Protocol
  import opened Invariants

  function Pending(s: State): seq<Package> {
    PackagesOf(s.pending)
  }

  /** The board that the broadcast log alone produces. */
  function BroadcastBoard(s: State): Board {
    Replay(PackagesOf(s.broadcast), map[])
  }

  /** The board a client will hold once it has applied what is queued and in its socket. */
  function View(r: Replica): Board {
    Replay(r.queue + r.channel, r.list)
  }

  /** The two logs agree up to the pending commands. */
  ghost predicate LogsInSync(s: State, good: Board -> bool) {
    && good(BroadcastBoard(s)) && Replay(Pending(s), BroadcastBoard(s)) == s.board
    && Replay(PackagesOf(s.executed), map[]) == s.board
  }

  ghost predicate ClientInSync(s: State, r: Replica, good: Board -> bool) {
    good(View(r)) && Replay(Pending(s), View(r)) == s.board
  }

  /** The logs and the clients of the users `us` are in sync; nothing is said of other clients. */
  ghost predicate InSync(s: State, us: set<int>, good: Board -> bool) {
    && LogsInSync(s, good)
    && forall u | u in us && u in s.replicas :: ClientInSync(s, s.replicas[u], good)
  }

  /** The commands in flight keep `good`, and commute with one another on the boards in it. */
  ghost predicate FlightCommutes(s: State, good: Board -> bool) {
    && (forall m | good(m) :: Keyed(m))
    && AllKeep(good, Pending(s)) && AllCommute(good, Pending(s))
    && forall p | p in Pending(s) :: !p.Bulk?
  }

  /** The user whose client loads a snapshot in this step. */
  predicate Joins(s: State, step: Step, u: int) {
    step == Reconnect(u) || (step.Connect? && u == s.nextUser)
  }

  /**
   The users whose latest join was safe. A client that joins loads the commands in flight with its snapshot and is
   then sent them again; this is harmless unless one of them is an undo that acts.
   */
  ghost function SafeAfter(s: State, step: Step, us: set<int>): set<int> {
    var u := if step.Reconnect? then step.user else s.nextUser;
    if !Joins(s, step, u) then us
    else if UndosIdle(Pending(s), s.board) then us + {u}
    else us - {u}
  }

  ghost function JoinedSafely(s: State, steps: seq<Step>, us: set<int>): set<int>
    requires Run(s, steps)
    decreases |steps|
  {
    if steps == [] then us else JoinedSafely(Next(s, steps[0]), steps[1..], SafeAfter(s, steps[0], us))
  }

  lemma SyncExecuted(s: State, u: int, us: set<int>, good: Board -> bool)
    requires InSync(s, us, good) && u in s.handlers && s.handlers[u].buffer != []
    requires FlightCommutes(Executed(s, u), good)
    ensures InSync(Executed(s, u), us, good)
  {
    var s' := Executed(s, u);
    var p := s.handlers[u].buffer[0];
    assert Pending(s') == Pending(s) + [p];
    assert Pending(s')[|s.pending|] == p;
    assert PackagesOf(s'.executed) == PackagesOf(s.executed) + [p];
    ReplayLast(Pending(s), p, BroadcastBoard(s));
    ReplayLast(PackagesOf(s.executed), p, map[]);
    forall v | v in us && v in s'.replicas
      ensures Replay(Pending(s'), View(s'.replicas[v])) == s'.board
    {
      ReplayLast(Pending(s), p, View(s.replicas[v]));
    }
  }

  /** A broadcast adds the package to what the client will hold. */
  lemma ViewSent(r: Replica, p: Package)
    ensures View(r.(channel := r.channel + [p])) == Apply(p, View(r))
  {
    assert r.queue + (r.channel + [p]) == (r.queue + r.channel) + [p];
    ReplayLast(r.queue + r.channel, p, r.list);
  }

  lemma SyncSent(s: State, at: nat, us: set<int>, good: Board -> bool)
    requires InSync(s, us, good) && at < |s.pending| && FlightCommutes(s, good)
    ensures InSync(Sent(s, at), us, good)
  {
    hide Apply, Replay, View, AllCommute, Keyed;
    var s' := Sent(s, at);
    var p := Pending(s)[at];
    assert Pending(s') == Without(Pending(s), at);
    assert PackagesOf(s'.broadcast) == PackagesOf(s.broadcast) + [p];
    ReplayLast(PackagesOf(s.broadcast), p, map[]);
    OutOfTurn(good, Pending(s), at, BroadcastBoard(s));
    assert Keeps(good, p);
    forall v | v in us && v in s'.replicas
      ensures ClientInSync(s', s'.replicas[v], good)
    {
      ViewSent(s.replicas[v], p);
      OutOfTurn(good, Pending(s), at, View(s.replicas[v]));
    }
  }

  lemma NewView(s: State)
    requires Keyed(s.board)
    ensures View(NewReplica(s)) == s.board
  {
    var r := NewReplica(s);
    SnapshotRoundTrip(s.board);
    assert r.queue + r.channel == [Bulk(r.snapshot)];
    ReplayLast([], Bulk(r.snapshot), map[]);
    assert [] + [Bulk(r.snapshot)] == [Bulk(r.snapshot)];
  }

  /**
   When the server's board is what the flight makes of some board `m`, a joining client is in sync if and only if no
   undo in flight finds an item on the server's board.
   */
  lemma JoinExactly(s: State, m: Board, good: Board -> bool)
    requires good(m) && Replay(Pending(s), m) == s.board && FlightCommutes(s, good)
    ensures good(View(NewReplica(s))) && View(NewReplica(s)) == s.board
    ensures ClientInSync(s, NewReplica(s), good) <==> UndosIdle(Pending(s), s.board)
  {
    ReplayKeeps(good, Pending(s), m);
    NewView(s);
    ReplayedTwice(good, Pending(s), m);
  }

  /** A step that only touches one replica keeps the others in sync. */
  lemma SyncOneReplica(s: State, u: int, r: Replica, us: set<int>, good: Board -> bool)
    requires InSync(s, us - {u}, good) && (u in us ==> ClientInSync(s, r, good))
    ensures InSync(s.(replicas := s.replicas[u := r]), us, good)
  {
    var s' := s.(replicas := s.replicas[u := r]);
    forall v | v in us && v in s'.replicas
      ensures ClientInSync(s', s'.replicas[v], good)
    {
      assert v != u ==> v in us - {u};
    }
  }

  lemma SyncSameView(s: State, u: int, r: Replica, us: set<int>, good: Board -> bool)
    requires InSync(s, us, good) && u in s.replicas && View(r) == View(s.replicas[u])
    ensures InSync(s.(replicas := s.replicas[u := r]), us, good)
  {
    assert u in us ==> ClientInSync(s, s.replicas[u], good);
    SyncOneReplica(s, u, r, us, good);
  }

  lemma ViewKept(r: Replica)
    ensures r.channel != [] ==>
              View(r.(queue := r.queue + [r.channel[0]], channel := r.channel[1..])) == View(r)
    ensures r.queue != [] ==>
              View(r.(applied := r.applied + [r.queue[0]], queue := r.queue[1..], list := Apply(r.queue[0], r.list)))
              == View(r)
  {
    if r.channel != [] {
      assert r.queue + r.channel == (r.queue + [r.channel[0]]) + r.channel[1..];
    }
    if r.queue != [] {
      assert (r.queue + r.channel)[1..] == r.queue[1..] + r.channel;
    }
  }

  lemma SyncFrame(s: State, s': State, us: set<int>, good: Board -> bool)
    requires InSync(s, us, good)
    requires s'.board == s.board && s'.pending == s.pending && s'.executed == s.executed
    requires s'.broadcast == s.broadcast
    requires forall u | u in s'.replicas :: u in s.replicas && s'.replicas[u] == s.replicas[u]
    ensures InSync(s', us, good)
  {
  }

  lemma SyncJoined(s: State, u: int, us: set<int>, good: Board -> bool)
    requires InSync(s, us, good) && FlightCommutes(s, good)
    ensures InSync(s.(replicas := s.replicas[u := NewReplica(s)]),
                   if UndosIdle(Pending(s), s.board) then us + {u} else us - {u}, good)
  {
    JoinExactly(s, BroadcastBoard(s), good);
    SyncOneReplica(s, u, NewReplica(s), if UndosIdle(Pending(s), s.board) then us + {u} else us - {u}, good);
  }

  /** Every step keeps the logs in sync, and every client whose latest join was safe, whoever else joins and when. */
  lemma SyncKept(s: State, step: Step, us: set<int>, good: Board -> bool)
    requires InSync(s, us, good) && Enabled(s, step)
    requires FlightCommutes(s, good) && FlightCommutes(Next(s, step), good)
    ensures InSync(Next(s, step), SafeAfter(s, step, us), good)
  {
    hide InSync, FlightCommutes, View, Replay, Apply, Pending, UndosIdle, NewReplica, ServerApply;
    match step
    case Connect =>
      SyncJoined(s, s.nextUser, us, good);
      SyncFrame(s.(replicas := s.replicas[s.nextUser := NewReplica(s)]), Next(s, step), SafeAfter(s, step, us), good);
    case Reconnect(u) => SyncJoined(s, u, us, good);
    case Execute(u) => SyncExecuted(s, u, us, good);
    case Broadcast(at) => SyncSent(s, at, us, good);
    case Enqueue(u) =>
      ViewKept(s.replicas[u]);
      SyncSameView(s, u, Next(s, step).replicas[u], us, good);
    case Consume(u) =>
      ViewKept(s.replicas[u]);
      SyncSameView(s, u, Next(s, step).replicas[u], us, good);
    case _ => SyncFrame(s, Next(s, step), us, good);
  }

  /** Once everything executed has been broadcast, the two logs give one board, and drained clients hold it. */
  ghost predicate Converged(s: State, us: set<int>) {
    s.pending == [] ==>
      && Replay(PackagesOf(s.broadcast), map[]) == Replay(PackagesOf(s.executed), map[]) == s.board
      && forall u | u in us && u in s.replicas && Drained(s.replicas[u]) :: s.replicas[u].list == s.board
  }

  lemma SyncedAtRest(s: State, us: set<int>, good: Board -> bool)
    requires InSync(s, us, good)
    ensures Converged(s, us)
  {
    forall u | u in us && u in s.replicas && Drained(s.replicas[u]) && s.pending == []
      ensures s.replicas[u].list == s.board
    {
      assert ClientInSync(s, s.replicas[u], good);
      assert s.replicas[u].queue + s.replicas[u].channel == [];
    }
  }

  lemma SyncInit()
    ensures InSync(INIT, {}, KeyedBoards())
  {
  }

  // ---------------------------------------------------------------- overlapping windows

  /** Command `i` was executed first and had not been broadcast when command `j` was executed. */
  ghost predicate Overlap(s: State, i: nat, j: nat)
    requires j < |s.executed|
  {
    i < j && forall a | 0 <= a < |s.broadcast| && a < s.executed[j].seen :: s.broadcast[a].num != i
  }

  /** Any two commands whose windows from execute to broadcast overlap may be reordered. */
  ghost predicate OverlapsCommute(s: State) {
    && (forall i | 0 <= i < |s.executed| :: !s.executed[i].pkg.Bulk?)
    && (forall i: nat, j: nat | i < j < |s.executed| && Overlap(s, i, j) ::
          MayReorder(s.executed[i].pkg, s.executed[j].pkg))
  }

  ghost function KeyedBoards(): Board -> bool {
    m => Keyed(m)
  }

  lemma KeepsKeyed(p: Package)
    ensures Keeps(KeyedBoards(), p)
  {
    forall m: Board | Keyed(m) ensures Keyed(Apply(p, m)) { ApplyKeepsKeyed(p, m); }
  }

  lemma CommuteKeyed(p: Package, q: Package)
    requires MayReorder(p, q) && !p.Bulk? && !q.Bulk?
    ensures CommuteOn(KeyedBoards(), p, q)
  {
    hide Apply, MayReorder, Keyed;
    forall m ensures Apply(p, Apply(q, m)) == Apply(q, Apply(p, m)) { ReorderSound(p, q, m); }
  }

  lemma OverlapFlight(s: State)
    requires Windows(s) && OverlapsCommute(s)
    ensures FlightCommutes(s, KeyedBoards())
  {
    hide Apply, Keyed, MayReorder;
    var good := KeyedBoards();
    forall i | 0 <= i < |s.pending|
      ensures Keeps(good, Pending(s)[i]) && !Pending(s)[i].Bulk?
    {
      assert s.executed[s.pending[i].num] == s.pending[i];
      KeepsKeyed(s.pending[i].pkg);
    }
    forall i, j | 0 <= i < j < |s.pending|
      ensures CommuteOn(good, Pending(s)[i], Pending(s)[j])
    {
      var a, b := s.pending[i], s.pending[j];
      assert s.executed[a.num] == a && s.executed[b.num] == b;
      assert Overlap(s, a.num, b.num);
      CommuteKeyed(a.pkg, b.pkg);
    }
  }

  lemma {:induction false} LogsGrow(s: State, steps: seq<Step>)
    requires Run(s, steps)
    ensures s.executed <= After(s, steps).executed
    ensures s.broadcast <= After(s, steps).broadcast
    decreases |steps|
  {
    if steps != [] {
      LogsGrow(Next(s, steps[0]), steps[1..]);
    }
  }

  lemma OverlapsEarlier(s: State, steps: seq<Step>)
    requires Windows(s) && Run(s, steps) && Windows(After(s, steps)) && OverlapsCommute(After(s, steps))
    ensures OverlapsCommute(s)
  {
    var t := After(s, steps);
    LogsGrow(s, steps);
    forall i | 0 <= i < |s.executed|
      ensures s.executed[i] == t.executed[i]
    {
    }
    forall i: nat, j: nat | i < j < |s.executed| && Overlap(s, i, j)
      ensures MayReorder(s.executed[i].pkg, s.executed[j].pkg)
    {
      assert forall a | 0 <= a < s.executed[j].seen :: s.broadcast[a] == t.broadcast[a];
      assert Overlap(t, i, j);
    }
  }

  lemma {:induction false} OverlapRun(s: State, steps: seq<Step>, us: set<int>)
    requires Inv(s) && InSync(s, us, KeyedBoards()) && Run(s, steps)
    requires Inv(After(s, steps)) && OverlapsCommute(After(s, steps))
    ensures InSync(After(s, steps), JoinedSafely(s, steps, us), KeyedBoards())
    decreases |steps|
  {
    if steps != [] {
      var next := Next(s, steps[0]);
      InvKept(s, steps[0]);
      OverlapsEarlier(s, steps);
      OverlapsEarlier(next, steps[1..]);
      OverlapFlight(s);
      OverlapFlight(next);
      SyncKept(s, steps[0], us, KeyedBoards());
      OverlapRun(next, steps[1..], SafeAfter(s, steps[0], us));
    }
  }

  /**
   In every run in which overlapping commands may be reordered the two logs produce the same board once everything
   has been broadcast, whoever joins and when; and every client whose own latest join was safe ends with that board.
   */
  lemma OverlapTheorem(steps: seq<Step>)
    requires Run(INIT, steps) && OverlapsCommute(After(INIT, steps))
    ensures Converged(After(INIT, steps), JoinedSafely(INIT, steps, {}))
  {
    hide *;
    InvInit();
    SyncInit();
    InvAlways(INIT, steps);
    OverlapRun(INIT, steps, {});
    SyncedAtRest(After(INIT, steps), JoinedSafely(INIT, steps, {}), KeyedBoards());
  }

  // ---------------------------------------------------------------- logs without undo, logs of inserts

  ghost predicate UndoFree(s: State) {
    forall i | 0 <= i < |s.executed| :: !s.executed[i].pkg.Undo?
  }

  /** Without undo, every join is safe. */
  lemma {:induction false} UndoFreeJoins(s: State, steps: seq<Step>, us: set<int>)
    requires Inv(s) && Run(s, steps) && UndoFree(After(s, steps)) && s.replicas.Keys <= us
    ensures After(s, steps).replicas.Keys <= JoinedSafely(s, steps, us)
    decreases |steps|
  {
    if steps != [] {
      hide Inv, UndoFree;
      InvKept(s, steps[0]);
      UndoFreeFlight(s, steps);
      SafeGrows(s, steps[0], us);
      UndoFreeJoins(Next(s, steps[0]), steps[1..], SafeAfter(s, steps[0], us));
    }
  }

  lemma UndoFreeFlight(s: State, steps: seq<Step>)
    requires Inv(s) && Run(s, steps) && UndoFree(After(s, steps))
    ensures UndosIdle(Pending(s), s.board)
  {
    hide Run, After, Apply;
    LogsGrow(s, steps);
    forall i | 0 <= i < |s.pending|
      ensures !Pending(s)[i].Undo?
    {
      assert s.executed[s.pending[i].num] == s.pending[i];
      assert After(s, steps).executed[s.pending[i].num] == s.pending[i];
    }
  }

  /** In a moment when joins are safe, a step only adds safe clients. */
  lemma SafeGrows(s: State, step: Step, us: set<int>)
    requires Enabled(s, step) && UndosIdle(Pending(s), s.board) && s.replicas.Keys <= us
    ensures us <= SafeAfter(s, step, us) && Next(s, step).replicas.Keys <= SafeAfter(s, step, us)
  {
    hide UndosIdle, Apply, ServerApply, NewReplica;
  }

  /**
   Late joiners: without undo, a client that loads a snapshot with commands in it that are still to be broadcast, and
   then receives these again among newer ones, ends equal to the server.
   */
  lemma LateJoinersConverge(steps: seq<Step>)
    requires Run(INIT, steps) && OverlapsCommute(After(INIT, steps)) && UndoFree(After(INIT, steps))
    ensures Converged(After(INIT, steps), After(INIT, steps).replicas.Keys)
  {
    hide OverlapsCommute, UndoFree, Run, After;
    InvInit();
    UndoFreeJoins(INIT, steps, {});
    OverlapTheorem(steps);
  }

  /** The stress tests of the repository: if all commands are inserts, every run converges, whenever clients join. */
  lemma InsertsConverge(steps: seq<Step>)
    requires Run(INIT, steps)
    requires forall i | 0 <= i < |After(INIT, steps).executed| ::
               After(INIT, steps).executed[i].pkg.Insert? || Silent(After(INIT, steps).executed[i].pkg)
    ensures var s := After(INIT, steps);
            Quiescent(s) ==> forall u | u in s.replicas ::
              s.replicas[u].list == s.board && Serialized(s.replicas[u].list) == Serialized(s.board)
  {
    hide Run, After, Inv;
    InvInit();
    InvAlways(INIT, steps);
    InsertsReorder(After(INIT, steps));
    LateJoinersConverge(steps);
  }

  lemma InsertsReorder(s: State)
    requires Inv(s)
    requires forall i | 0 <= i < |s.executed| :: s.executed[i].pkg.Insert? || Silent(s.executed[i].pkg)
    ensures OverlapsCommute(s) && UndoFree(s)
  {
    forall i: nat, j: nat | i < j < |s.executed| && Overlap(s, i, j)
      ensures MayReorder(s.executed[i].pkg, s.executed[j].pkg)
    {
      assert DistinctInserts(s.executed[i].pkg, s.executed[j].pkg);
    }
  }
}

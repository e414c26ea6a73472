/**
 Convergence with undo and clear-mine: every user draws, edits and removes only items of their own.

 Commands of different users then act on disjoint parts of the board, so all interleavings agree.
 */
module SingleOwner {
  import opened Packages
  import opened OrderedKeys
  import opened Boards
  import opened Commands
  import opened Reordering
  import opened Protocol
  import opened Invariants
  import opened Convergence

  /** Every item belongs to the user to whom its id was issued. */
  ghost predicate OwnedBy(issued: map<int, int>, m: Board) {
    forall k | k in m :: k in issued && m[k].userId == issued[k] && m[k].drawId == k
  }

  ghost function OwnedBoards(issued: map<int, int>): Board -> bool {
    m => OwnedBy(issued, m)
  }

  /** A command with which the user touches only what is theirs. */
  predicate Own(issued: map<int, int>, u: int, p: Package) {
    match p
    case Insert(data) => data.drawId in issued && issued[data.drawId] == u && data.userId == u
    case Edit(id, data) => id in issued && issued[id] == u && data.userId == u
    case Remove(id) => id in issued && issued[id] == u
    case Clear(user) => user == u && u != EVERYONE
    case Undo(user) => user == u
    case Bulk(_) => false
    case _ => true
  }

  predicate Mine(issued: map<int, int>, u: int, k: int) {
    k in issued && issued[k] == u
  }

  /** The user's part of a board. */
  function Part(issued: map<int, int>, u: int, m: Board): Board {
    map k | k in m && Mine(issued, u, k) :: m[k]
  }

  /** What is not the user's. */
  function Rest(issued: map<int, int>, u: int, m: Board): Board {
    map k | k in m && !Mine(issued, u, k) :: m[k]
  }

  /** A user's own command leaves the rest of the board alone, and acts on the user's part as if it were all there is. */
  lemma OwnIsLocal(issued: map<int, int>, u: int, p: Package, m: Board)
    requires OwnedBy(issued, m) && Own(issued, u, p)
    ensures OwnedBy(issued, Apply(p, m))
    ensures Rest(issued, u, Apply(p, m)) == Rest(issued, u, m)
    ensures Part(issued, u, Apply(p, m)) == Apply(p, Part(issued, u, m))
  {
    if p.Clear? || p.Undo? {
      assert OwnedIds(Part(issued, u, m), u) == OwnedIds(m, u);
      if OwnedIds(m, u) != {} {
        var top := Greatest(OwnedIds(m, u));
        assert Mine(issued, u, top);
      }
    }
  }

  /** Boards that agree outside one user's part agree on every other user's part, and outside both. */
  lemma RestHoldsOthers(issued: map<int, int>, u: int, v: int, m: Board, n: Board)
    requires u != v && Rest(issued, v, m) == Rest(issued, v, n)
    ensures Part(issued, u, m) == Part(issued, u, n)
    ensures Rest(issued, v, Rest(issued, u, m)) == Rest(issued, v, Rest(issued, u, n))
  {
    forall k | !Mine(issued, v, k)
      ensures k in m <==> k in n
      ensures k in m ==> m[k] == n[k]
    {
      assert k in m <==> k in Rest(issued, v, m);
      assert k in n <==> k in Rest(issued, v, n);
    }
    assert forall k | Mine(issued, u, k) :: !Mine(issued, v, k);
  }

  lemma PartsMakeBoard(issued: map<int, int>, u: int, v: int, m: Board, n: Board)
    requires Part(issued, u, m) == Part(issued, u, n) && Part(issued, v, m) == Part(issued, v, n)
    requires Rest(issued, v, Rest(issued, u, m)) == Rest(issued, v, Rest(issued, u, n))
    ensures m == n
  {
    forall k
      ensures k in m <==> k in n
      ensures k in m ==> m[k] == n[k]
    {
      assert k in m ==> k in Part(issued, u, m) || k in Part(issued, v, m) || k in Rest(issued, v, Rest(issued, u, m));
      assert k in n ==> k in Part(issued, u, n) || k in Part(issued, v, n) || k in Rest(issued, v, Rest(issued, u, n));
    }
  }

  /** Own commands of two users commute, whatever they are. */
  lemma OwnersCommute(issued: map<int, int>, u: int, p: Package, v: int, q: Package, m: Board)
    requires OwnedBy(issued, m) && u != v && Own(issued, u, p) && Own(issued, v, q)
    ensures Apply(p, Apply(q, m)) == Apply(q, Apply(p, m))
  {
    hide Apply, Part, Rest, Own, OwnedBy;
    var mp, mq := Apply(p, m), Apply(q, m);
    OwnIsLocal(issued, u, p, m);
    OwnIsLocal(issued, v, q, m);
    OwnIsLocal(issued, u, p, mq);
    OwnIsLocal(issued, v, q, mp);
    RestHoldsOthers(issued, u, v, mq, m);
    RestHoldsOthers(issued, v, u, mp, m);
    RestHoldsOthers(issued, u, v, Apply(q, mp), mp);
    RestHoldsOthers(issued, v, u, Apply(p, mq), mq);
    RestTwice(issued, u, v, Apply(p, mq));
    RestTwice(issued, u, v, mq);
    RestTwice(issued, u, v, mp);
    RestTwice(issued, u, v, m);
    PartsMakeBoard(issued, u, v, Apply(p, mq), Apply(q, mp));
  }

  lemma RestTwice(issued: map<int, int>, u: int, v: int, m: Board)
    ensures Rest(issued, u, Rest(issued, v, m)) == Rest(issued, v, Rest(issued, u, m))
  {
  }

  // ---------------------------------------------------------------- runs

  /** Every command received in this step is the user's own; an insert is the user's once it is stamped. */
  ghost predicate OwnStep(s: State, step: Step)
    requires Enabled(s, step)
  {
    step.Receive? && !step.pkg.Invalid? ==>
      Own(Next(s, step).issued, step.user, Stamp(step.pkg, s.nextId))
  }

  ghost predicate OwnRun(s: State, steps: seq<Step>)
    requires Run(s, steps)
    decreases |steps|
  {
    steps == [] || (OwnStep(s, steps[0]) && OwnRun(Next(s, steps[0]), steps[1..]))
  }

  ghost predicate AllOwn(s: State) {
    && (forall u, i | u in s.handlers && 0 <= i < |s.handlers[u].buffer| :: Own(s.issued, u, s.handlers[u].buffer[i]))
    && (forall i | 0 <= i < |s.pending| :: Own(s.issued, s.pending[i].user, s.pending[i].pkg))
  }

  ghost predicate Extends(issued: map<int, int>, issued': map<int, int>) {
    forall k | k in issued :: k in issued' && issued'[k] == issued[k]
  }

  lemma IssuedGrows(s: State, step: Step)
    requires FreshIds(s) && Enabled(s, step)
    ensures Extends(s.issued, Next(s, step).issued)
  {
    assert s.nextId !in s.issued;
  }

  lemma AllOwnExtends(s: State, issued: map<int, int>)
    requires AllOwn(s) && Extends(s.issued, issued)
    ensures AllOwn(s.(issued := issued))
  {
  }

  lemma AllOwnExecuted(s: State, u: int)
    requires AllOwn(s) && u in s.handlers && s.handlers[u].buffer != []
    ensures AllOwn(Executed(s, u))
  {
    var s' := Executed(s, u);
    assert Own(s.issued, u, s.handlers[u].buffer[0]);
    assert forall i | 0 <= i < |s.pending| :: s'.pending[i] == s.pending[i];
  }

  lemma AllOwnReceived(s: State, u: int, p: Package)
    requires FreshIds(s) && AllOwn(s) && u in s.handlers
    requires p.Invalid? || Own(Received(s, u, p).issued, u, Stamp(p, s.nextId))
    ensures AllOwn(Received(s, u, p))
  {
    var s' := Received(s, u, p);
    assert s.nextId !in s.issued;
    AllOwnExtends(s, s'.issued);
    var q := s.(issued := s'.issued);
    forall v, i | v in s'.handlers && 0 <= i < |s'.handlers[v].buffer|
      ensures Own(s'.issued, v, s'.handlers[v].buffer[i])
    {
      if i < |s.handlers[v].buffer| {
        assert s'.handlers[v].buffer[i] == s.handlers[v].buffer[i];
        assert Own(q.issued, v, q.handlers[v].buffer[i]);
      }
    }
    assert forall i | 0 <= i < |s'.pending| :: s'.pending[i] == q.pending[i];
  }

  lemma AllOwnKept(s: State, step: Step)
    requires FreshIds(s) && AllOwn(s) && Enabled(s, step) && OwnStep(s, step)
    ensures AllOwn(Next(s, step))
  {
    match step
    case Receive(u, p) => AllOwnReceived(s, u, p);
    case Execute(u) => AllOwnExecuted(s, u);
    case Broadcast(at) =>
      assert forall i | 0 <= i < |s.pending| - 1 :: Sent(s, at).pending[i] == s.pending[if i < at then i else i + 1];
    case _ =>
  }

  lemma OwnFlight(s: State, issued: map<int, int>)
    requires OneSlotEach(s.pending) && AllOwn(s.(issued := issued))
    ensures FlightCommutes(s, OwnedBoards(issued))
  {
    var good := OwnedBoards(issued);
    var q := s.(issued := issued);
    forall i | 0 <= i < |s.pending|
      ensures Keeps(good, Pending(s)[i]) && !Pending(s)[i].Bulk?
    {
      assert Own(q.issued, q.pending[i].user, q.pending[i].pkg);
      forall m | good(m)
        ensures good(Apply(Pending(s)[i], m))
      {
        OwnIsLocal(issued, s.pending[i].user, Pending(s)[i], m);
      }
    }
    forall i, j | 0 <= i < j < |s.pending|
      ensures CommuteOn(good, Pending(s)[i], Pending(s)[j])
    {
      var a, b := q.pending[i], q.pending[j];
      assert Own(issued, a.user, a.pkg) && Own(issued, b.user, b.pkg);
      forall m | good(m)
        ensures Apply(a.pkg, Apply(b.pkg, m)) == Apply(b.pkg, Apply(a.pkg, m))
      {
        OwnersCommute(issued, a.user, a.pkg, b.user, b.pkg, m);
      }
    }
  }

  lemma OwnedExtends(issued: map<int, int>, issued': map<int, int>, m: Board)
    requires Extends(issued, issued') && OwnedBy(issued, m)
    ensures OwnedBy(issued', m)
  {
  }

  lemma SyncExtends(s: State, us: set<int>, issued: map<int, int>, issued': map<int, int>)
    requires InSync(s, us, OwnedBoards(issued)) && Extends(issued, issued')
    ensures InSync(s, us, OwnedBoards(issued'))
  {
    OwnedExtends(issued, issued', BroadcastBoard(s));
    forall u | u in us && u in s.replicas
      ensures ClientInSync(s, s.replicas[u], OwnedBoards(issued'))
    {
      assert ClientInSync(s, s.replicas[u], OwnedBoards(issued));
      OwnedExtends(issued, issued', View(s.replicas[u]));
    }
  }

  lemma OwnSyncKept(s: State, step: Step, us: set<int>)
    requires Inv(s) && AllOwn(s) && InSync(s, us, OwnedBoards(s.issued))
    requires Enabled(s, step) && OwnStep(s, step)
    ensures AllOwn(Next(s, step))
    ensures InSync(Next(s, step), SafeAfter(s, step, us), OwnedBoards(Next(s, step).issued))
  {
    hide InSync, FlightCommutes, AllOwn, SafeAfter, OwnStep;
    var s' := Next(s, step);
    IssuedGrows(s, step);
    AllOwnKept(s, step);
    InvKept(s, step);
    AllOwnExtends(s, s'.issued);
    OwnFlight(s, s'.issued);
    assert s'.(issued := s'.issued) == s';
    OwnFlight(s', s'.issued);
    SyncExtends(s, us, s.issued, s'.issued);
    SyncKept(s, step, us, OwnedBoards(s'.issued));
  }

  lemma {:induction false} OwnSyncAlways(s: State, steps: seq<Step>, us: set<int>)
    requires Inv(s) && AllOwn(s) && InSync(s, us, OwnedBoards(s.issued))
    requires Run(s, steps) && OwnRun(s, steps)
    ensures InSync(After(s, steps), JoinedSafely(s, steps, us), OwnedBoards(After(s, steps).issued))
    decreases |steps|
  {
    if steps != [] {
      InvKept(s, steps[0]);
      OwnSyncKept(s, steps[0], us);
      OwnSyncAlways(Next(s, steps[0]), steps[1..], SafeAfter(s, steps[0], us));
    }
  }

  lemma OwnInit()
    ensures AllOwn(INIT) && InSync(INIT, {}, OwnedBoards(INIT.issued))
  {
  }

  /**
   If every user edits and removes only items of their own and nobody clears everything, then in every interleaving
   the two logs produce the same board once everything has been broadcast, and every client whose own latest join was
   safe ends with it, undo and clear-mine included. Other clients may join and leave at any time.
   */
  lemma SingleOwnerConverges(steps: seq<Step>)
    requires Run(INIT, steps) && OwnRun(INIT, steps)
    ensures Converged(After(INIT, steps), JoinedSafely(INIT, steps, {}))
  {
    hide *;
    var s := After(INIT, steps);
    InvInit();
    OwnInit();
    OwnSyncAlways(INIT, steps, {});
    SyncedAtRest(s, JoinedSafely(INIT, steps, {}), OwnedBoards(s.issued));
  }

  // ---------------------------------------------------------------- clients that were there from the start

  lemma {:induction false} JoinedSafelyConcat(s: State, a: seq<Step>, b: seq<Step>, us: set<int>)
    requires Run(s, a) && Run(After(s, a), b) && Run(s, a + b)
    ensures JoinedSafely(s, a + b, us) == JoinedSafely(After(s, a), b, JoinedSafely(s, a, us))
    decreases |a|
  {
    hide Enabled, Next, SafeAfter;
    if a == [] {
      assert a + b == b;
    } else {
      assert (a + b)[1..] == a[1..] + b && (a + b)[0] == a[0];
      JoinedSafelyConcat(Next(s, a[0]), a[1..], b, SafeAfter(s, a[0], us));
    }
  }

  /** As long as nothing has been executed, nothing is in flight and every join is safe. */
  lemma {:induction false} JoinsBeforeCommands(s: State, steps: seq<Step>, us: set<int>)
    requires Inv(s) && Run(s, steps) && After(s, steps).executed == [] && s.replicas.Keys <= us
    ensures After(s, steps).replicas.Keys <= JoinedSafely(s, steps, us)
    decreases |steps|
  {
    LogsGrow(s, steps);
    assert s.pending == [];
    if steps != [] {
      InvKept(s, steps[0]);
      SafeGrows(s, steps[0], us);
      JoinsBeforeCommands(Next(s, steps[0]), steps[1..], SafeAfter(s, steps[0], us));
    }
  }

  lemma StaysSafeStep(s: State, step: Step, us: set<int>, u: int)
    requires Enabled(s, step) && u in us && u < s.nextUser && step != Reconnect(u)
    ensures u in SafeAfter(s, step, us) && u < Next(s, step).nextUser
  {
  }

  /** A client that never reconnects stays safely joined, whoever else joins. */
  lemma {:induction false} StaysSafe(s: State, steps: seq<Step>, us: set<int>, u: int)
    requires Run(s, steps) && u in us && u < s.nextUser
    requires forall i | 0 <= i < |steps| :: steps[i] != Reconnect(u)
    ensures u in JoinedSafely(s, steps, us)
    decreases |steps|
  {
    if steps != [] {
      assert steps[0] != Reconnect(u);
      assert forall i | 0 <= i < |steps[1..]| :: steps[1..][i] == steps[i + 1];
      hide Enabled, Next, SafeAfter;
      StaysSafeStep(s, steps[0], us, u);
      StaysSafe(Next(s, steps[0]), steps[1..], SafeAfter(s, steps[0], us), u);
    }
  }

  /**
   A client that is connected before the first command is executed, and does not reconnect after it, needs no condition
   on joins: others may connect, reconnect and leave whenever they like.
   */
  lemma EarlyClientsConverge(before: seq<Step>, rest: seq<Step>, u: int)
    requires Run(INIT, before) && Run(After(INIT, before), rest)
    requires Run(INIT, before + rest) && OwnRun(INIT, before + rest)
    requires After(INIT, before).executed == [] && u in After(INIT, before).replicas
    requires forall i | 0 <= i < |rest| :: rest[i] != Reconnect(u)
    ensures Converged(After(INIT, before + rest), {u})
  {
    hide Run, After, OwnRun, Enabled, Next;
    InvInit();
    InvAlways(INIT, before);
    JoinsBeforeCommands(INIT, before, {});
    StaysSafe(After(INIT, before), rest, JoinedSafely(INIT, before, {}), u);
    JoinedSafelyConcat(INIT, before, rest, {});
    SingleOwnerConverges(before + rest);
  }

  // ---------------------------------------------------------------- what a connected user owns

  /** Nobody connected has the user id that `clear` reads as "every user". */
  lemma NobodyIsEveryone(steps: seq<Step>, u: int)
    requires Run(INIT, steps) && u in After(INIT, steps).handlers
    ensures 0 <= u && u != -1 && u != EVERYONE
  {
    hide Run, After;
    InvInit();
    InvAlways(INIT, steps);
  }

  /** A connected user's clear-mine removes that user's items, and keeps every item of anybody else as it is. */
  lemma ClearMineKeepsOthers(steps: seq<Step>, u: int, m: Board, k: int)
    requires Run(INIT, steps) && u in After(INIT, steps).handlers
    ensures k in Apply(Clear(u), m) <==> k in m && m[k].userId != u
    ensures k in Apply(Clear(u), m) ==> Apply(Clear(u), m)[k] == m[k]
    ensures Apply(Clear(-1), m) == map[]
  {
    hide Run, After;
    NobodyIsEveryone(steps, u);
  }

  /** Undoing as often as one owns items is clear-mine, for every connected user. */
  lemma UndoAllIsClearMine(steps: seq<Step>, u: int, m: Board)
    requires Run(INIT, steps) && u in After(INIT, steps).handlers
    ensures UndoneTimes(m, u, |OwnedIds(m, u)|) == Apply(Clear(u), m)
  {
    hide Run, After, UndoneTimes;
    NobodyIsEveryone(steps, u);
    UndoAllIsClear(m, u);
  }

  /**
   What counts as a user's own, for every connected user: their undo and clear-mine, their inserts, and edits and
   removes of every item they have inserted.
   */
  lemma OwnCommands(steps: seq<Step>, u: int, id: int, data: DrawData)
    requires Run(INIT, steps) && u in After(INIT, steps).handlers && data.userId == u
    ensures var s := After(INIT, steps);
            && Own(s.issued, u, Undo(u)) && Own(s.issued, u, Clear(u))
            && (Enabled(s, Receive(u, Insert(data))) ==> OwnStep(s, Receive(u, Insert(data))))
            && (id in s.issued && s.issued[id] == u ==> Own(s.issued, u, Edit(id, data)) && Own(s.issued, u, Remove(id)))
  {
    hide Run, After;
    NobodyIsEveryone(steps, u);
  }
}

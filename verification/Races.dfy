/**
 Overlapping commands of two users: exactly which of them make a client end with another board than the server.

 `Commands.CommuteExactly` answers this for arbitrary boards. Here the question is asked of runs, whose boards hold only
 ids that the server has issued, and whose inserts get ids that no board has yet.
 */
module Races {
  import opened Packages
  import opened OrderedKeys
  import opened Boards
  import opened Commands
  import opened Protocol
  import opened Invariants
  import opened Convergence
  import opened Agreement

  // ---------------------------------------------------------------- what a run adds

  lemma ViewStep(s: State, step: Step, u: int)
    requires Enabled(s, step) && u in s.replicas && u < s.nextUser
    requires step != Disconnect(u) && step != Exit(u) && step != Reconnect(u)
    ensures var t := Next(s, step);
            && u in t.replicas && u < t.nextUser
            && (if step.Broadcast? then
                  t.broadcast == s.broadcast + [s.pending[step.at]]
                  && View(t.replicas[u]) == Apply(s.pending[step.at].pkg, View(s.replicas[u]))
                else t.broadcast == s.broadcast && View(t.replicas[u]) == View(s.replicas[u]))
  {
    hide View, Apply, ServerApply, NewReplica;
    ViewKept(s.replicas[u]);
    if step.Broadcast? {
      ViewSent(s.replicas[u], s.pending[step.at].pkg);
    }
  }

  /** What a client will hold changes by exactly what is broadcast. */
  lemma {:induction false} ViewAdvances(s: State, steps: seq<Step>, u: int)
    requires u in s.replicas && u < s.nextUser && Run(s, steps) && Stays(steps, u)
    ensures var t := After(s, steps);
            && u in t.replicas && s.broadcast <= t.broadcast
            && View(t.replicas[u]) == Since(t.broadcast, |s.broadcast|, View(s.replicas[u]))
    decreases |steps|
  {
    hide View, Apply;
    if steps == [] {
      assert s.broadcast[|s.broadcast|..] == [];
    } else {
      var next, t := Next(s, steps[0]), After(s, steps);
      assert Enabled(s, steps[0]) && t == After(next, steps[1..]);
      StaysOn(steps, u);
      hide Since, Run, After, Stays;
      ViewStep(s, steps[0], u);
      hide Next, Enabled;
      ViewAdvances(next, steps[1..], u);
      if steps[0].Broadcast? {
        SinceFirst(s.broadcast, s.pending[steps[0].at], t.broadcast, View(s.replicas[u]));
      }
    }
  }

  lemma StaysOn(steps: seq<Step>, u: int)
    requires steps != [] && Stays(steps, u)
    ensures Stays(steps[1..], u)
    ensures steps[0] != Disconnect(u) && steps[0] != Exit(u) && steps[0] != Reconnect(u)
  {
    assert forall i | 0 <= i < |steps[1..]| :: steps[1..][i] == steps[i + 1];
  }

  /** The board after the part of a log from place `n` on. */
  function Since(log: seq<Event>, n: nat, m: Board): Board
    requires n <= |log|
  {
    Replay(PackagesOf(log[n..]), m)
  }

  lemma SinceFirst(before: seq<Event>, e: Event, log: seq<Event>, m: Board)
    requires before + [e] <= log
    ensures before <= log && Since(log, |before|, m) == Since(log, |before| + 1, Apply(e.pkg, m))
  {
    assert log[|before|..] == [e] + log[|before| + 1..];
    ReplayFirst(e, log[|before| + 1..], m);
  }

  lemma ReplayFirst(e: Event, log: seq<Event>, m: Board)
    ensures Replay(PackagesOf([e] + log), m) == Replay(PackagesOf(log), Apply(e.pkg, m))
  {
    assert PackagesOf([e] + log) == [e.pkg] + PackagesOf(log);
    assert ([e.pkg] + PackagesOf(log))[1..] == PackagesOf(log);
  }

  lemma BoardStep(s: State, step: Step)
    requires Enabled(s, step)
    ensures var t := Next(s, step);
            if step.Execute? then
              |t.executed| == |s.executed| + 1 && t.executed[..|s.executed|] == s.executed
              && var p := t.executed[|s.executed|].pkg; t.board == if p.Bulk? then s.board else Apply(p, s.board)
            else t.executed == s.executed && t.board == s.board
  {
    hide Apply, NewReplica;
  }

  /** A log without the bulk packages, which the server ignores. */
  function Drawing(log: seq<Event>): seq<Event> {
    if log == [] then [] else (if log[0].pkg.Bulk? then [] else [log[0]]) + Drawing(log[1..])
  }

  /** The board after what was executed from place `n` on. */
  function DrawnSince(log: seq<Event>, n: nat, m: Board): Board
    requires n <= |log|
  {
    Replay(PackagesOf(Drawing(log[n..])), m)
  }

  lemma DrawingFirst(before: seq<Event>, e: Event, log: seq<Event>, m: Board)
    requires before + [e] <= log
    ensures before <= log
    ensures DrawnSince(log, |before|, m)
         == DrawnSince(log, |before| + 1, if e.pkg.Bulk? then m else Apply(e.pkg, m))
  {
    hide Apply, Replay;
    var rest := log[|before| + 1..];
    assert log[|before|..] == [e] + rest && log[|before|..][1..] == rest;
    if e.pkg.Bulk? {
      assert [] + Drawing(rest) == Drawing(rest);
    } else {
      ReplayFirst(e, Drawing(rest), m);
    }
  }

  /** The server's board changes by exactly what is executed, and a bulk package from a client does nothing to it. */
  lemma {:induction false} BoardAdvances(s: State, steps: seq<Step>)
    requires Run(s, steps)
    ensures var t := After(s, steps);
            s.executed <= t.executed && t.board == DrawnSince(t.executed, |s.executed|, s.board)
    decreases |steps|
  {
    hide Apply;
    if steps == [] {
      assert s.executed[|s.executed|..] == [];
    } else {
      var next, t := Next(s, steps[0]), After(s, steps);
      assert Enabled(s, steps[0]) && t == After(next, steps[1..]);
      hide Run, After, DrawnSince;
      LogsGrow(next, steps[1..]);
      BoardStep(s, steps[0]);
      hide Enabled, Next;
      BoardAdvances(next, steps[1..]);
      if steps[0].Execute? {
        var e := t.executed[|s.executed|];
        assert next.executed == s.executed + [e];
        DrawingFirst(s.executed, e, t.executed, s.board);
      }
    }
  }

  ghost predicate AllFrom(log: seq<Event>, n: nat) {
    forall i | 0 <= i < |log| :: n <= log[i].num
  }

  lemma FlightStep(s: State, step: Step, n: nat)
    requires Enabled(s, step) && n <= |s.executed| && AllFrom(s.pending, n)
    ensures var t := Next(s, step);
            && n <= |t.executed| && AllFrom(t.pending, n) && s.broadcast <= t.broadcast
            && AllFrom(t.broadcast[|s.broadcast|..], n)
  {
    hide Apply, ServerApply, NewReplica;
    if step.Broadcast? {
      var t := Next(s, step);
      assert forall i | 0 <= i < |t.pending| :: t.pending[i] == s.pending[if i < step.at then i else i + 1];
    }
  }

  /** With nothing in flight at the start, what is broadcast later is what was executed since. */
  lemma {:induction false} FlightIsNew(s: State, steps: seq<Step>, n: nat)
    requires Run(s, steps) && n <= |s.executed| && AllFrom(s.pending, n)
    ensures var t := After(s, steps);
            s.broadcast <= t.broadcast && AllFrom(t.broadcast[|s.broadcast|..], n)
    decreases |steps|
  {
    if steps != [] {
      var next, t := Next(s, steps[0]), After(s, steps);
      FlightStep(s, steps[0], n);
      hide Enabled, Next;
      FlightIsNew(next, steps[1..], n);
      assert t.broadcast[|s.broadcast|..] == next.broadcast[|s.broadcast|..] + t.broadcast[|next.broadcast|..];
    }
  }

  // ---------------------------------------------------------------- races

  /** The package that a received one becomes, once an insert has been given an id that is not below `next`. */
  predicate SentAs(p: Package, x: Package, next: int) {
    if p.Insert? then x.Insert? && next <= x.data.drawId && x.data == p.data.(drawId := x.data.drawId) else x == p
  }

  /**
   From a moment when nothing is in flight and client `c` is in sync, just the two packages are executed; in the end
   both have been broadcast and the client, which stayed connected, has applied all it was sent.
   */
  ghost predicate Raced(s: State, steps: seq<Step>, c: int, p: Package, q: Package) {
    && s.pending == [] && c in s.replicas && View(s.replicas[c]) == s.board
    && Run(s, steps) && Stays(steps, c)
    && var t := After(s, steps);
       var n := |s.executed|;
       && t.pending == [] && c in t.replicas && Drained(t.replicas[c])
       && |t.executed| == n + 2
       && ((SentAs(p, t.executed[n].pkg, s.nextId) && SentAs(q, t.executed[n + 1].pkg, s.nextId))
           || (SentAs(q, t.executed[n].pkg, s.nextId) && SentAs(p, t.executed[n + 1].pkg, s.nextId)))
  }

  /** In no run do the two packages, sent at the same time, make a client differ from the server. */
  ghost predicate NeverDiverge(p: Package, q: Package) {
    forall before, steps, c | Run(INIT, before) && Raced(After(INIT, before), steps, c, p, q) ::
      After(After(INIT, before), steps).replicas[c].list == After(After(INIT, before), steps).board
  }

  /** The pairs for which `NeverDiverge` holds, in one orientation. Packages are as sent: inserts have no id yet. */
  predicate Harmless(p: Package, q: Package) {
    match (p, q)
    case (Insert(_), Insert(_)) => true
    case (Insert(d), Edit(id, e)) => id < 0 || e.(drawId := 0) == d.(drawId := 0)
    case (Insert(_), Remove(id)) => id < 0
    case (Insert(d), Clear(user)) => user != EVERYONE && user != d.userId
    case (Insert(d), Undo(user)) => user != d.userId
    case (Edit(i, d), Edit(j, e)) => i != j || i < 0 || d.(drawId := i) == e.(drawId := i)
    case (Edit(_, _), Remove(_)) => true
    case (Edit(id, _), Clear(user)) => id < 0 || user == EVERYONE
    case (Edit(id, _), Undo(_)) => id < 0
    case (Remove(_), Remove(_)) => true
    case (Remove(_), Clear(_)) => true
    case (Remove(id), Undo(_)) => id <= 0
    case (Clear(_), Clear(_)) => true
    case (Clear(_), Undo(_)) => true
    case (Undo(_), Undo(_)) => true
    case _ => Silent(p)
  }

  predicate RaceFree(p: Package, q: Package) {
    Harmless(p, q) || Harmless(q, p)
  }

  // ---------------------------------------------------------------- harmless pairs

  /** A board as it occurs in a run: under ids that have been issued. */
  predicate Occurs(m: Board, next: int) {
    forall k | k in m :: 0 <= k < next && m[k].drawId == k
  }

  lemma HarmlessCommutes(p: Package, q: Package, x: Package, y: Package, m: Board, next: int)
    requires Harmless(p, q) && !p.Bulk? && !q.Bulk? && 0 <= next && Occurs(m, next)
    requires SentAs(p, x, next) && SentAs(q, y, next) && DistinctInserts(x, y)
    ensures Apply(x, Apply(y, m)) == Apply(y, Apply(x, m))
  {
    if MayReorder(x, y) {
      ReorderSound(x, y, m);
    } else if p.Insert? && q.Undo? {
      InsertUndo(x.data, q.user, m);
    } else if p.Remove? && q.Undo? {
      RemoveUndo(p.id, q.user, m);
    } else {
      assert p.Edit? && p.id < 0;
      assert p.id !in Apply(y, m);
    }
  }

  lemma InsertUndo(d: DrawData, u: int, m: Board)
    requires d.drawId !in m && d.userId != u
    ensures Undone(Inserted(m, d), u) == Inserted(Undone(m, u), d)
  {
    assert OwnedIds(Inserted(m, d), u) == OwnedIds(m, u);
  }

  /** An id that no item is below can be the user's last only if it is the user's only one. */
  lemma RemoveUndo(id: int, u: int, m: Board)
    requires id <= 0 && forall k | k in m :: 0 <= k
    ensures Undone(Erased(m, id), u) == Erased(Undone(m, u), id)
  {
    var mine, left := OwnedIds(m, u), OwnedIds(Erased(m, id), u);
    assert left == mine - {id};
    if left == {} {
      assert mine <= {id};
    } else {
      assert Greatest(left) in mine && Greatest(left) != id;
      assert Greatest(mine) in left;
    }
  }

  /** What the client ends with: the two packages in one order or in the other. */
  lemma RacedEnds(s: State, steps: seq<Step>, c: int, p: Package, q: Package)
    requires Inv(s) && Raced(s, steps, c, p, q) && Inv(After(s, steps)) && !p.Bulk? && !q.Bulk?
    ensures var t, n := After(s, steps), |s.executed|;
            var x, y := t.executed[n].pkg, t.executed[n + 1].pkg;
            && t.board == Apply(y, Apply(x, s.board))
            && (t.replicas[c].list == Apply(y, Apply(x, s.board)) || t.replicas[c].list == Apply(x, Apply(y, s.board)))
  {
    hide Run, After, View, Apply, Inv, Since, DrawnSince;
    var t, n := After(s, steps), |s.executed|;
    BoardAdvances(s, steps);
    KnownUser(s, c);
    ViewAdvances(s, steps, c);
    TwoBroadcast(s, steps);
    var e, f := t.executed[n], t.executed[n + 1];
    assert t.executed[n..] == [e, f];
    TwoDrawn(t.executed, n, e, f, s.board);
    TwoSince(t.broadcast, |s.broadcast|, e, f, s.board);
    TwoSince(t.broadcast, |s.broadcast|, f, e, s.board);
    DrainedView(t.replicas[c]);
  }

  lemma KnownUser(s: State, c: int)
    requires Inv(s) && c in s.replicas
    ensures c < s.nextUser
  {
    assert c in s.handlers;
  }

  /** Two commands executed while nothing else is in flight are broadcast in one order or in the other. */
  lemma TwoBroadcast(s: State, steps: seq<Step>)
    requires Inv(s) && Run(s, steps) && s.pending == [] && Inv(After(s, steps)) && After(s, steps).pending == []
    requires |After(s, steps).executed| == |s.executed| + 2
    ensures var t, n := After(s, steps), |s.executed|;
            var tail, e, f := t.broadcast[|s.broadcast|..], t.executed[n], t.executed[n + 1];
            s.broadcast <= t.broadcast && (tail == [e, f] || tail == [f, e])
  {
    hide Run, After, ProgramOrder, FreshIds, ReplicasFollow, UsersKnown;
    var t, n, m := After(s, steps), |s.executed|, |s.broadcast|;
    FlightIsNew(s, steps, n);
    assert |t.broadcast| == m + 2;
    var a, b := t.broadcast[m], t.broadcast[m + 1];
    assert t.broadcast[m..] == [a, b];
    assert n <= t.broadcast[m..][0].num && n <= t.broadcast[m..][1].num;
    assert t.executed[a.num] == a && t.executed[b.num] == b && a.num != b.num;
  }

  lemma TwoDrawn(log: seq<Event>, n: nat, e: Event, f: Event, m: Board)
    requires n <= |log| && log[n..] == [e, f] && !e.pkg.Bulk? && !f.pkg.Bulk?
    ensures DrawnSince(log, n, m) == Apply(f.pkg, Apply(e.pkg, m))
  {
    assert [e, f][1..] == [f] && [f][1..] == [];
    assert Drawing([f]) == [f] + Drawing([]);
    assert Drawing([e, f]) == [e] + Drawing([f]) == [e, f];
    ReplayTwo(e, f, m);
  }

  lemma TwoSince(log: seq<Event>, n: nat, e: Event, f: Event, m: Board)
    requires n <= |log|
    ensures log[n..] == [e, f] ==> Since(log, n, m) == Apply(f.pkg, Apply(e.pkg, m))
  {
    ReplayTwo(e, f, m);
  }

  lemma ReplayTwo(e: Event, f: Event, m: Board)
    ensures Replay(PackagesOf([e, f]), m) == Apply(f.pkg, Apply(e.pkg, m))
  {
    assert [e, f] == [e] + [f] && [f] == [f] + [];
    ReplayFirst(e, [f], m);
    ReplayFirst(f, [], Apply(e.pkg, m));
  }

  lemma DrainedView(r: Replica)
    requires Drained(r)
    ensures View(r) == r.list
  {
    assert r.queue + r.channel == [];
  }

  lemma RaceFreeConverges(before: seq<Step>, steps: seq<Step>, c: int, p: Package, q: Package)
    requires RaceFree(p, q) && !p.Bulk? && !q.Bulk?
    requires Run(INIT, before) && Raced(After(INIT, before), steps, c, p, q)
    ensures var t := After(After(INIT, before), steps); t.replicas[c].list == t.board
  {
    hide Run, After, Apply, Harmless, ProgramOrder, Windows, ReplicasFollow;
    var s := After(INIT, before);
    var t, n := After(s, steps), |s.executed|;
    InvInit();
    InvAlways(INIT, before);
    InvAlways(s, steps);
    RacedEnds(s, steps, c, p, q);
    var x, y := t.executed[n].pkg, t.executed[n + 1].pkg;
    assert DistinctInserts(x, y) && DistinctInserts(y, x);
    assert Occurs(s.board, s.nextId);
    var straight := SentAs(p, x, s.nextId) && SentAs(q, y, s.nextId);
    if Harmless(p, q) {
      if straight { HarmlessCommutes(p, q, x, y, s.board, s.nextId); }
      else { HarmlessCommutes(p, q, y, x, s.board, s.nextId); }
    } else {
      if straight { HarmlessCommutes(q, p, y, x, s.board, s.nextId); }
      else { HarmlessCommutes(q, p, x, y, s.board, s.nextId); }
    }
  }

  // ---------------------------------------------------------------- the others race

  /** The board after `n` inserts by one user. */
  function Drawn(n: nat, owner: int): Board {
    map k | 0 <= k < n :: Blank(k, owner)
  }

  function Kind(p: Package): nat {
    match p
    case Insert(_) => 0
    case Edit(_, _) => 1
    case Remove(_) => 2
    case Clear(_) => 3
    case Undo(_) => 4
    case _ => 5
  }

  /** A board as a few inserts leave it, on which the order of the two packages shows. */
  lemma RaceBoard(p: Package, q: Package) returns (n: nat, owner: int)
    requires !RaceFree(p, q) && !p.Bulk? && !q.Bulk? && Kind(p) <= Kind(q)
    ensures var m, x, y := Drawn(n, owner), Stamp(p, n), Stamp(q, n);
            Apply(x, Apply(y, m)) != Apply(y, Apply(x, m))
  {
    owner := 0;
    if p.Insert? {
      n := if q.Edit? || q.Remove? then q.id else 0;
      InsertShows(p.data, q, n);
    } else if q.Undo? {
      owner := if p.Edit? && p.data.userId == q.user then q.user + 1 else q.user;
      n := p.id + 1;
      UndoShows(p, q.user, owner);
    } else {
      n := p.id + 1;
      var i := p.id;
      if q.Clear? {
        owner := if p.data.userId == q.user then q.user + 1 else q.user;
        assert i in Apply(p, Apply(q, Drawn(n, owner))) <==> i !in Apply(q, Apply(p, Drawn(n, owner)));
      } else {
        assert Apply(p, Apply(q, Drawn(n, owner)))[i] != Apply(q, Apply(p, Drawn(n, owner)))[i];
      }
    }
  }

  lemma InsertShows(d: DrawData, q: Package, n: nat)
    requires !RaceFree(Insert(d), q) && !q.Bulk? && (q.Edit? || q.Remove? ==> n == q.id)
    ensures var m, x := Drawn(n, 0), Stamp(Insert(d), n); Apply(x, Apply(q, m)) != Apply(q, Apply(x, m))
  {
    var m, x := Drawn(n, 0), Stamp(Insert(d), n);
    assert n !in m && n in Apply(x, Apply(q, m));
    if q.Undo? {
      assert n in OwnedIds(Apply(x, m), q.user);
      assert Greatest(OwnedIds(Apply(x, m), q.user)) == n;
    } else if q.Edit? {
      assert Apply(x, Apply(q, m))[n] != Apply(q, Apply(x, m))[n];
    }
  }

  lemma UndoShows(p: Package, u: int, owner: int)
    requires || (p.Edit? && p.id >= 0 && owner == if p.data.userId == u then u + 1 else u)
             || (p.Remove? && p.id > 0 && owner == u)
    ensures Apply(p, Apply(Undo(u), Drawn(p.id + 1, owner))) != Apply(Undo(u), Apply(p, Drawn(p.id + 1, owner)))
  {
    var i := p.id;
    var m := Drawn(i + 1, owner);
    if p.Edit? && p.data.userId == u {
      assert OwnedIds(m, u) == {};
      assert OwnedIds(Apply(p, m), u) == {i};
      assert i in Apply(p, Apply(Undo(u), m));
    } else if p.Edit? {
      assert i in OwnedIds(m, u);
      assert i !in OwnedIds(Apply(p, m), u);
      assert Greatest(OwnedIds(m, u)) == i;
      assert i in Apply(Undo(u), Apply(p, m)) && i !in Apply(p, Apply(Undo(u), m));
    } else {
      assert i in OwnedIds(m, u) && i - 1 in OwnedIds(Apply(p, m), u);
      assert Greatest(OwnedIds(m, u)) == i && Greatest(OwnedIds(Apply(p, m), u)) == i - 1;
      assert i - 1 in m && i - 1 !in Apply(Undo(u), Apply(p, m));
      assert i - 1 in Apply(p, Apply(Undo(u), m));
    }
  }

  // ---------------------------------------------------------------- building the runs

  /** An idle user's command is received and executed. */
  lemma Perform(s: State, u: int, p: Package) returns (steps: seq<Step>)
    requires !p.Invalid? && !p.Bulk? && u in s.handlers && s.handlers[u].buffer == [] && Idle(s, u)
    ensures Run(s, steps) && forall i | 0 <= i < |steps| :: steps[i].Receive? || steps[i].Execute?
    ensures var t, x := After(s, steps), Stamp(p, s.nextId);
            && t.board == Apply(x, s.board)
            && t.nextId == s.nextId + (if p.Insert? then 1 else 0)
            && t.pending == s.pending + [Event(u, x, |s.executed|, |s.broadcast|)]
            && t.executed == s.executed + [Event(u, x, |s.executed|, |s.broadcast|)]
            && t.broadcast == s.broadcast && t.replicas == s.replicas && t.nextUser == s.nextUser
            && t.handlers.Keys == s.handlers.Keys && t.handlers[u].buffer == []
            && forall v | v in s.handlers && v != u :: t.handlers[v] == s.handlers[v]
  {
    hide Apply, NewReplica, Sent;
    steps := [Receive(u, p), Execute(u)];
    var next := Next(s, Receive(u, p));
    assert Idle(next, u) && next.handlers[u].buffer == [Stamp(p, s.nextId)];
    assert Enabled(next, Execute(u));
    RunOne(next, Execute(u));
    RunMore(s, Receive(u, p), [Execute(u)]);
    assert [Receive(u, p)] + [Execute(u)] == steps;
  }

  lemma Announce(s: State, at: nat, c: int)
    requires at < |s.pending| && c in s.replicas && c < s.nextUser
    ensures Run(s, [Broadcast(at)])
    ensures var t := After(s, [Broadcast(at)]);
            && t == Sent(s, at) && c in t.replicas
            && View(t.replicas[c]) == Apply(s.pending[at].pkg, View(s.replicas[c]))
  {
    RunOne(s, Broadcast(at));
    ViewStep(s, Broadcast(at), c);
  }

  /** Two idle users send a package each; executed in one order, broadcast in the other. */
  lemma RaceRun(s: State, c: int, u: int, v: int, p: Package, q: Package) returns (steps: seq<Step>)
    requires s.pending == [] && c in s.replicas && c < s.nextUser && View(s.replicas[c]) == s.board
    requires u != v && u in s.handlers && v in s.handlers && s.handlers[u].buffer == s.handlers[v].buffer == []
    requires !p.Invalid? && !p.Bulk? && !q.Invalid? && !q.Bulk?
    ensures Raced(s, steps, c, p, q)
    ensures var t := After(s, steps);
            var x, y := Stamp(p, s.nextId), Stamp(q, s.nextId + if p.Insert? then 1 else 0);
            && Quiescent(t)
            && t.board == Apply(y, Apply(x, s.board)) && t.replicas[c].list == Apply(x, Apply(y, s.board))
  {
    hide Run, After, Enabled, Next, Apply, View, Replay, Quiescent;
    var first := Perform(s, u, p);
    var a := After(s, first);
    var second := Perform(a, v, q);
    var b := After(a, second);
    var landing := LandSwapped(b, c);
    RunConcat(a, second, landing);
    RunConcat(s, first, second + landing);
    steps := first + (second + landing);
  }

  /** Two commands in flight land in the order opposite to their execution. */
  lemma LandSwapped(s: State, c: int) returns (steps: seq<Step>)
    requires |s.pending| == 2 && c in s.replicas && c < s.nextUser
    ensures Run(s, steps) && forall i | 0 <= i < |steps| :: Lands(steps[i])
    ensures var t := After(s, steps);
            && Quiescent(t) && t.pending == [] && t.board == s.board && t.executed == s.executed
            && c in t.replicas && Drained(t.replicas[c])
            && t.replicas[c].list == Apply(s.pending[0].pkg, Apply(s.pending[1].pkg, View(s.replicas[c])))
  {
    hide Run, After, Enabled, Next, Apply, View, Replay, Quiescent;
    Announce(s, 1, c);
    var d := After(s, [Broadcast(1)]);
    Announce(d, 0, c);
    var e := After(d, [Broadcast(0)]);
    var rest := Settle(e);
    ViewAdvances(e, rest, c);
    NothingSince(e.broadcast, View(e.replicas[c]));
    var t := After(e, rest);
    AtRest(t, c);
    DrainedView(t.replicas[c]);
    RunConcat(d, [Broadcast(0)], rest);
    RunConcat(s, [Broadcast(1)], [Broadcast(0)] + rest);
    steps := [Broadcast(1)] + ([Broadcast(0)] + rest);
  }

  /** Two users have joined, and the first has drawn `n` items, one after the other; its client is in sync. */
  lemma {:induction false} DrawItems(n: nat, owner: int) returns (steps: seq<Step>)
    ensures Run(INIT, steps)
    ensures var s := After(INIT, steps);
            && s.pending == [] && s.nextId == n && s.nextUser == 2 && s.board == Drawn(n, owner)
            && 0 in s.handlers && 1 in s.handlers && s.handlers[0].buffer == s.handlers[1].buffer == []
            && 0 in s.replicas && View(s.replicas[0]) == s.board
  {
    hide Run, After, View;
    if n == 0 {
      var one := Next(INIT, Connect);
      NewView(INIT);
      assert NewReplica(INIT) == one.replicas[0];
      RunOne(one, Connect);
      RunMore(INIT, Connect, [Connect]);
      steps := [Connect] + [Connect];
      assert Drawn(0, owner) == map[];
    } else {
      hide Enabled, Next, Apply;
      var before := DrawItems(n - 1, owner);
      var s := After(INIT, before);
      var draw := Perform(s, 0, Insert(Blank(0, owner)));
      var t := After(s, draw);
      Announce(t, 0, 0);
      OneMore(n, owner);
      RunConcat(s, draw, [Broadcast(0)]);
      RunConcat(INIT, before, draw + [Broadcast(0)]);
      steps := before + (draw + [Broadcast(0)]);
    }
  }

  lemma OneMore(n: nat, owner: int)
    requires n > 0
    ensures Apply(Stamp(Insert(Blank(0, owner)), n - 1), Drawn(n - 1, owner)) == Drawn(n, owner)
  {
  }

  /** Two packages that are not race free diverge in some run. */
  lemma RacyDiverges(p: Package, q: Package) returns (before: seq<Step>, steps: seq<Step>, c: int)
    requires !RaceFree(p, q) && !p.Bulk? && !q.Bulk? && Kind(p) <= Kind(q)
    ensures Run(INIT, before) && Raced(After(INIT, before), steps, c, p, q)
    ensures var t := After(After(INIT, before), steps); Quiescent(t) && t.replicas[c].list != t.board
  {
    hide Run, After, Apply, Raced, View, Quiescent;
    var n, owner := RaceBoard(p, q);
    before := DrawItems(n, owner);
    c := 0;
    assert q.Insert? ==> p.Insert?;
    assert Stamp(q, n + if p.Insert? then 1 else 0) == Stamp(q, n);
    steps := RaceRun(After(INIT, before), c, 0, 1, p, q);
  }

  lemma RacedSymmetric(s: State, steps: seq<Step>, c: int, p: Package, q: Package)
    ensures Raced(s, steps, c, p, q) == Raced(s, steps, c, q, p)
  {
  }

  /**
   Sent at the same time, two packages can make a client end with another board than the server's if and only if they
   are not race free.
   */
  lemma RacesExactly(p: Package, q: Package)
    requires !p.Bulk? && !q.Bulk?
    ensures NeverDiverge(p, q) <==> RaceFree(p, q)
  {
    hide Run, After, RaceFree, View, Stays, Drained, SentAs;
    if RaceFree(p, q) {
      forall before, steps, c | Run(INIT, before) && Raced(After(INIT, before), steps, c, p, q)
        ensures After(After(INIT, before), steps).replicas[c].list == After(After(INIT, before), steps).board
      {
        RaceFreeConverges(before, steps, c, p, q);
      }
    } else if Kind(p) <= Kind(q) {
      var before, steps, c := RacyDiverges(p, q);
    } else {
      RaceFreeSymmetric(p, q);
      var before, steps, c := RacyDiverges(q, p);
      RacedSymmetric(After(INIT, before), steps, c, p, q);
    }
  }

  lemma RaceFreeSymmetric(p: Package, q: Package)
    ensures RaceFree(p, q) == RaceFree(q, p)
  {
  }

  /** From every reachable state with an in-sync client and two idle users there is a run in which the packages race. */
  lemma RacesFromAnywhere(before: seq<Step>, c: int, u: int, v: int, p: Package, q: Package) returns (steps: seq<Step>)
    requires Run(INIT, before) && !p.Invalid? && !p.Bulk? && !q.Invalid? && !q.Bulk?
    requires var s := After(INIT, before);
             && c in s.replicas && Replay(Pending(s), View(s.replicas[c])) == s.board
             && u != v && u in s.handlers && v in s.handlers && s.handlers[u].buffer == s.handlers[v].buffer == []
    ensures Run(After(INIT, before), steps)
    ensures var s, t := After(INIT, before), After(After(INIT, before), steps);
            var x, y := Stamp(p, s.nextId), Stamp(q, s.nextId + if p.Insert? then 1 else 0);
            && Quiescent(t) && c in t.replicas
            && (t.replicas[c].list == t.board <==> Apply(x, Apply(y, s.board)) == Apply(y, Apply(x, s.board)))
  {
    hide Run, After, Enabled, Next, Apply, View, Replay, Quiescent, Inv;
    var s := After(INIT, before);
    InvInit();
    InvAlways(INIT, before);
    KnownUser(s, c);
    var flight := Settle(s);
    var a := After(s, flight);
    ViewAdvances(s, flight, c);
    assert a.broadcast[|s.broadcast|..] == s.pending;
    AtRest(a, c);
    var race := RaceRun(a, c, u, v, p, q);
    RunConcat(s, flight, race);
    steps := flight + race;
  }

  lemma AtRest(s: State, c: int)
    requires Quiescent(s) && c in s.replicas
    ensures s.pending == [] && Drained(s.replicas[c])
  {
  }

  lemma NothingSince(log: seq<Event>, m: Board)
    ensures Since(log, |log|, m) == m
  {
    assert log[|log|..] == [];
  }
}

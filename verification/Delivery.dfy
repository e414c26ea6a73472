/** What the clients send is what the server executes and broadcasts: nothing is lost, and nothing is stuck. */
module Delivery {
  import opened Packages
  import opened Boards
  import opened Commands
  import opened Reordering
  import opened Protocol
  import opened Invariants
  import opened Convergence
  import opened Agreement

  /** The valid packages that the user's client sends in the course of a run. */
  function Sends(steps: seq<Step>, u: int): seq<Package> {
    if steps == [] then []
    else (if steps[0].Receive? && steps[0].user == u && !steps[0].pkg.Invalid? then [steps[0].pkg] else [])
         + Sends(steps[1..], u)
  }

  /** The same packages, except that an insert has been given its draw id. */
  predicate AsSent(got: seq<Package>, sent: seq<Package>) {
    && |got| == |sent|
    && forall i | 0 <= i < |got| ::
         if sent[i].Insert? then got[i].Insert? && got[i].data == sent[i].data.(drawId := got[i].data.drawId)
         else got[i] == sent[i]
  }

  lemma ReceivedStep(s: State, step: Step, u: int)
    requires Enabled(s, step) && UsersKnown(s) && u in s.handlers && step != Exit(u)
    ensures u in Next(s, step).handlers
    ensures var was, got := s.handlers[u].received, Next(s, step).handlers[u].received;
            was <= got && AsSent(got[|was|..], Sends([step], u))
  {
    hide NewReplica, ServerApply;
    assert Sends([step][1..], u) == [];
  }

  /** A handler records every valid package of its client, in the order sent, whatever is in its buffer. */
  lemma {:induction false} ReceivedAsSent(s: State, steps: seq<Step>, u: int)
    requires UsersKnown(s) && u in s.handlers && Run(s, steps) && forall i | 0 <= i < |steps| :: steps[i] != Exit(u)
    ensures u in After(s, steps).handlers
    ensures var was, got := s.handlers[u].received, After(s, steps).handlers[u].received;
            was <= got && AsSent(got[|was|..], Sends(steps, u))
    decreases |steps|
  {
    if steps == [] {
      assert s.handlers[u].received[|s.handlers[u].received|..] == [];
    } else {
      var next := Next(s, steps[0]);
      assert Enabled(s, steps[0]) && After(s, steps) == After(next, steps[1..]);
      assert steps[0] != Exit(u) && forall i | 0 <= i < |steps[1..]| :: steps[1..][i] == steps[i + 1];
      UsersKnownKept(s, steps[0]);
      ReceivedStep(s, steps[0], u);
      SendsFirst(steps, u);
      hide Enabled, Next, Run, After, UsersKnown, Sends;
      ReceivedAsSent(next, steps[1..], u);
      AsSentConcat(s.handlers[u].received, next.handlers[u].received, After(next, steps[1..]).handlers[u].received,
                   Sends([steps[0]], u), Sends(steps[1..], u));
    }
  }

  lemma SendsFirst(steps: seq<Step>, u: int)
    requires steps != []
    ensures Sends(steps, u) == Sends([steps[0]], u) + Sends(steps[1..], u)
  {
    assert [steps[0]][1..] == [];
  }

  lemma AsSentConcat(a: seq<Package>, b: seq<Package>, c: seq<Package>, x: seq<Package>, y: seq<Package>)
    requires a <= b <= c && AsSent(b[|a|..], x) && AsSent(c[|b|..], y)
    ensures AsSent(c[|a|..], x + y)
  {
    assert c[|a|..] == b[|a|..] + c[|b|..];
  }

  /**
   From the moment a user connects until their handler ends, what their client sent is what has been broadcast for it,
   then at most one package in flight, then the buffer, in the order sent.
   */
  lemma DeliveredAsSent(before: seq<Step>, steps: seq<Step>)
    requires Run(INIT, before) && Run(Next(After(INIT, before), Connect), steps)
    requires forall i | 0 <= i < |steps| :: steps[i] != Exit(After(INIT, before).nextUser)
    ensures var u, t := After(INIT, before).nextUser, After(Next(After(INIT, before), Connect), steps);
            && u in t.handlers && |Of(t.pending, u)| <= 1
            && AsSent(Of(t.broadcast, u) + Of(t.pending, u) + t.handlers[u].buffer, Sends(steps, u))
  {
    hide Run, After, Of, Sends, AsSent, Windows, FreshIds, ReplicasFollow;
    var s := After(INIT, before);
    InvInit();
    InvAlways(INIT, before);
    InvKept(s, Connect);
    InvAlways(Next(s, Connect), steps);
    ReceivedAsSent(Next(s, Connect), steps, s.nextUser);
    var t := After(Next(s, Connect), steps);
    assert t.handlers[s.nextUser].received[0..] == t.handlers[s.nextUser].received;
    AtMostOneSlot(t.pending, s.nextUser);
  }

  // ---------------------------------------------------------------- nothing is stuck

  /** A client may send any number of packages before the first of them is executed. */
  lemma {:induction false} Burst(s: State, u: int, ps: seq<Package>) returns (steps: seq<Step>)
    requires u in s.handlers && Idle(s, u)
    ensures Run(s, steps) && Sends(steps, u) == Valid(ps)
    ensures forall i | 0 <= i < |steps| :: steps[i] != Exit(u)
    ensures var t := After(s, steps);
            && u in t.handlers && t.pending == s.pending && t.executed == s.executed && t.broadcast == s.broadcast
    decreases |ps|
  {
    steps := [];
    if ps != [] {
      var step := Receive(u, ps[0]);
      var next := Next(s, step);
      assert Idle(next, u);
      hide Next, Enabled, Idle;
      var rest := Burst(next, u, ps[1..]);
      RunMore(s, step, rest);
      steps := [step] + rest;
      assert steps[1..] == rest;
    }
  }

  function Valid(ps: seq<Package>): seq<Package> {
    if ps == [] then [] else (if ps[0].Invalid? then [] else [ps[0]]) + Valid(ps[1..])
  }

  /** Every buffer can be run empty: from every state all that a handler has received can be executed and broadcast. */
  lemma {:induction false} Flush(s: State, u: int) returns (steps: seq<Step>)
    requires u in s.handlers
    ensures Run(s, steps) && Sends(steps, u) == []
    ensures forall i | 0 <= i < |steps| :: steps[i] != Exit(u)
    ensures var t := After(s, steps);
            && u in t.handlers && t.handlers[u].buffer == [] && Quiescent(t)
    decreases |s.handlers[u].buffer|
  {
    var first := Settle(s);
    var a := After(s, first);
    assert a.handlers == s.handlers && a.pending == [];
    NoSends(first, u);
    if s.handlers[u].buffer == [] {
      steps := first;
    } else {
      hide Sends, Run, After;
      var next := Next(a, Execute(u));
      assert |next.handlers[u].buffer| < |s.handlers[u].buffer|;
      assert Enabled(a, Execute(u));
      hide Enabled, Next;
      var rest := Flush(next, u);
      RunMore(a, Execute(u), rest);
      RunConcat(s, first, [Execute(u)] + rest);
      steps := first + ([Execute(u)] + rest);
      SendsConcat(first, [Execute(u)] + rest, u);
      SendsConcat([Execute(u)], rest, u);
      NoSends([Execute(u)], u);
    }
  }

  lemma {:induction false} NoSends(steps: seq<Step>, u: int)
    requires forall i | 0 <= i < |steps| :: !steps[i].Receive?
    ensures Sends(steps, u) == []
  {
    if steps != [] {
      NoSends(steps[1..], u);
    }
  }

  lemma {:induction false} SendsConcat(a: seq<Step>, b: seq<Step>, u: int)
    ensures Sends(a + b, u) == Sends(a, u) + Sends(b, u)
  {
    if a == [] {
      assert a + b == b;
    } else {
      assert (a + b)[1..] == a[1..] + b;
      SendsConcat(a[1..], b, u);
    }
  }

  /**
   Whatever an idle client sends at once can reach everybody: from every reachable state there is a run to rest in
   which the broadcasts of this user are those received before and then all valid packages sent, in order.
   */
  lemma BurstDelivered(before: seq<Step>, u: int, ps: seq<Package>) returns (steps: seq<Step>)
    requires Run(INIT, before) && u in After(INIT, before).handlers && Idle(After(INIT, before), u)
    ensures Run(After(INIT, before), steps)
    ensures var s, t := After(INIT, before), After(After(INIT, before), steps);
            && Quiescent(t) && s.handlers[u].received <= Of(t.broadcast, u)
            && AsSent(Of(t.broadcast, u)[|s.handlers[u].received|..], Valid(ps))
  {
    hide Run, After, Sends, AsSent, Of, Valid, Quiescent, Windows, FreshIds, ReplicasFollow;
    var s := After(INIT, before);
    InvInit();
    InvAlways(INIT, before);
    var burst := Burst(s, u, ps);
    var flush := Flush(After(s, burst), u);
    RunConcat(s, burst, flush);
    SendsConcat(burst, flush, u);
    steps := burst + flush;
    var t := After(s, steps);
    InvAlways(s, steps);
    ReceivedAsSent(s, steps, u);
    assert t.pending == [] by { Rested(t); }
    assert Of(t.pending, u) == [] by { OfStranger(t.pending, u); }
    assert Valid(ps) + [] == Valid(ps);
    var got := t.handlers[u].received;
    assert t.handlers[u].buffer == [];
    assert got == Of(t.executed, u) + [] == Of(t.executed, u) == Of(t.broadcast, u) + [];
    assert got == Of(t.broadcast, u);
  }

  /**
   A client may go and come back whatever is in flight for others: its handler keeps its buffer, and all that changes is
   that the client starts again from the server's board.
   */
  lemma LeaveAndReturn(s: State, u: int)
    requires u in s.handlers && u in s.replicas && Idle(s, u) && Keyed(s.board)
    ensures var steps := [Disconnect(u), Reconnect(u)];
            && Run(s, steps) && u in After(s, steps).replicas
            && After(s, steps) == s.(replicas := s.replicas[u := After(s, steps).replicas[u]])
            && View(After(s, steps).replicas[u]) == s.board
  {
    hide Run, After, View, NewReplica, Keyed;
    var gone := s.(replicas := s.replicas - {u});
    assert Enabled(s, Disconnect(u)) && Next(s, Disconnect(u)) == gone;
    assert Enabled(gone, Reconnect(u));
    RunOne(gone, Reconnect(u));
    RunMore(s, Disconnect(u), [Reconnect(u)]);
    assert [Disconnect(u)] + [Reconnect(u)] == [Disconnect(u), Reconnect(u)];
    NewView(gone);
    assert gone.replicas[u := NewReplica(gone)] == s.replicas[u := NewReplica(gone)];
  }

  /** A handler that cannot get the lock in time can try again, and nothing has changed. */
  lemma TryAgain(s: State, u: int)
    requires u in s.handlers && Idle(s, u) && s.handlers[u].buffer != []
    ensures Run(s, [LockTimeout(u)]) && After(s, [LockTimeout(u)]) == s && Enabled(s, Execute(u))
  {
    RunOne(s, LockTimeout(u));
  }

  lemma Rested(s: State)
    requires Quiescent(s)
    ensures s.pending == []
  {
  }
}

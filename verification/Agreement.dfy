/** What clients agree on among themselves, whatever is broadcast; and how runs come to rest. */
module Agreement {
  import opened Packages
  import opened Commands
  import opened Protocol
  import opened Invariants

  // ---------------------------------------------------------------- clients agree with one another

  /** How much of the broadcast log the client has applied. */
  function LogPoint(r: Replica): int {
    r.joined + |r.applied| - 1
  }

  lemma AppliedIsLog(r: Replica, log: seq<Event>, i: nat)
    requires Follows(r, log) && 1 <= i < |r.applied|
    ensures r.joined + i - 1 < |log| && r.applied[i] == log[r.joined + i - 1].pkg
  {
    var tail := PackagesOf(log[r.joined..]);
    assert r.applied[i] == (r.applied + r.queue + r.channel)[i] == ([Bulk(r.snapshot)] + tail)[i] == tail[i - 1];
  }

  predicate Stays(steps: seq<Step>, u: int) {
    forall i | 0 <= i < |steps| :: steps[i] != Disconnect(u) && steps[i] != Exit(u) && steps[i] != Reconnect(u)
  }

  lemma {:induction false} StaysAndGrows(s: State, steps: seq<Step>, u: int)
    requires UsersKnown(s) && u in s.replicas && Run(s, steps) && Stays(steps, u)
    ensures var t := After(s, steps);
            && u in t.replicas
            && t.replicas[u].joined == s.replicas[u].joined
            && s.replicas[u].applied <= t.replicas[u].applied
    decreases |steps|
  {
    if steps != [] {
      UsersKnownKept(s, steps[0]);
      assert steps[0] != Disconnect(u) && steps[0] != Exit(u) && steps[0] != Reconnect(u);
      assert forall i | 0 <= i < |steps[1..]| :: steps[1..][i] == steps[i + 1];
      StaysAndGrows(Next(s, steps[0]), steps[1..], u);
    }
  }

  /**
   Two clients that stay connected and once held the same board at the same point of the broadcast log hold the same
   board whenever they are at the same point again, whatever is executed, undone, cleared or bulk-loaded meanwhile.
   */
  lemma ClientsAgree(s: State, steps: seq<Step>, u: int, v: int)
    requires Inv(s) && Run(s, steps) && Stays(steps, u) && Stays(steps, v)
    requires u in s.replicas && v in s.replicas
    requires s.replicas[u].applied != [] && s.replicas[v].applied != []
    requires LogPoint(s.replicas[u]) == LogPoint(s.replicas[v]) && s.replicas[u].list == s.replicas[v].list
    ensures var t := After(s, steps);
            && u in t.replicas && v in t.replicas
            && (LogPoint(t.replicas[u]) == LogPoint(t.replicas[v]) ==> t.replicas[u].list == t.replicas[v].list)
            && (Drained(t.replicas[u]) && Drained(t.replicas[v]) ==> t.replicas[u].list == t.replicas[v].list)
  {
    hide Enabled, Next, Follows;
    var t := After(s, steps);
    InvAlways(s, steps);
    StaysAndGrows(s, steps, u);
    StaysAndGrows(s, steps, v);
    DrainedPoint(t.replicas[u], t.broadcast);
    DrainedPoint(t.replicas[v], t.broadcast);
    if LogPoint(t.replicas[u]) == LogPoint(t.replicas[v]) {
      SameSince(s.replicas[u], t.replicas[u], s.replicas[v], t.replicas[v], s.broadcast, t.broadcast);
    }
  }

  lemma SameSince(r: Replica, r': Replica, q: Replica, q': Replica, log: seq<Event>, log': seq<Event>)
    requires Follows(r, log) && Follows(q, log) && Follows(r', log') && Follows(q', log')
    requires r.applied != [] && r.applied <= r'.applied && r'.joined == r.joined
    requires q.applied != [] && q.applied <= q'.applied && q'.joined == q.joined
    requires LogPoint(r) == LogPoint(q) && LogPoint(r') == LogPoint(q') && r.list == q.list
    ensures r'.list == q'.list
  {
    hide Apply, Replay, PackagesOf;
    var m, n := |r.applied|, |q.applied|;
    forall i | 0 <= i < |r'.applied| - m
      ensures r'.applied[m..][i] == q'.applied[n..][i]
    {
      AppliedIsLog(r', log', m + i);
      AppliedIsLog(q', log', n + i);
    }
    assert r'.applied[m..] == q'.applied[n..];
    ReplayConcat(r.applied, r'.applied[m..], map[]);
    ReplayConcat(q.applied, q'.applied[n..], map[]);
    assert r'.applied == r.applied + r'.applied[m..] && q'.applied == q.applied + q'.applied[n..];
  }

  lemma DrainedPoint(r: Replica, log: seq<Event>)
    requires Follows(r, log)
    ensures Drained(r) ==> LogPoint(r) == |log|
  {
  }

  // ---------------------------------------------------------------- every run can come to rest

  lemma {:induction false} RunConcat(s: State, a: seq<Step>, b: seq<Step>)
    requires Run(s, a) && Run(After(s, a), b)
    ensures Run(s, a + b) && After(s, a + b) == After(After(s, a), b)
    decreases |a|
  {
    hide Enabled, Next;
    if a == [] {
      assert a + b == b;
    } else {
      RunConcat(Next(s, a[0]), a[1..], b);
      assert (a + b)[1..] == a[1..] + b;
    }
  }

  lemma RunOne(s: State, step: Step)
    requires Enabled(s, step)
    ensures Run(s, [step]) && After(s, [step]) == Next(s, step)
  {
    assert [step][1..] == [];
    assert Run(Next(s, step), []);
  }

  lemma RunMore(s: State, step: Step, rest: seq<Step>)
    requires Enabled(s, step) && Run(Next(s, step), rest)
    ensures Run(s, [step] + rest) && After(s, [step] + rest) == After(Next(s, step), rest)
  {
    RunOne(s, step);
    RunConcat(s, [step], rest);
  }

  /** The part of the state that emptying sockets and queues leaves alone. */
  ghost predicate SameServer(s: State, t: State) {
    && t.board == s.board && t.executed == s.executed && t.broadcast == s.broadcast && t.pending == s.pending
    && SameHandlers(s, t) && SameOrigins(s, t)
  }

  ghost predicate SameHandlers(s: State, t: State) {
    t.handlers == s.handlers && t.nextId == s.nextId && t.nextUser == s.nextUser && t.issued == s.issued
  }

  /** The same clients are connected, with the snapshots that they joined with. */
  ghost predicate SameOrigins(s: State, t: State) {
    && t.replicas.Keys == s.replicas.Keys
    && forall u | u in s.replicas ::
         t.replicas[u].joined == s.replicas[u].joined && t.replicas[u].snapshot == s.replicas[u].snapshot
  }

  /** The steps that bring what has been executed to the clients. */
  predicate Lands(step: Step) {
    step.Broadcast? || step.Enqueue? || step.Consume?
  }

  lemma {:induction false} Drain(s: State, u: int) returns (steps: seq<Step>)
    requires u in s.replicas
    ensures Run(s, steps) && forall i | 0 <= i < |steps| :: Lands(steps[i])
    ensures var t := After(s, steps);
            SameServer(s, t) && Drained(t.replicas[u])
            && forall v | v in s.replicas && v != u :: t.replicas[v] == s.replicas[v]
    decreases 2 * |s.replicas[u].channel| + |s.replicas[u].queue|
  {
    steps := [];
    if !Drained(s.replicas[u]) {
      hide Apply, NewReplica, Executed, Sent, Received;
      var step := if s.replicas[u].queue != [] then Consume(u) else Enqueue(u);
      var rest := Drain(Next(s, step), u);
      RunMore(s, step, rest);
      steps := [step] + rest;
    }
  }

  lemma {:induction false} DrainAll(s: State, users: set<int>) returns (steps: seq<Step>)
    requires users <= s.replicas.Keys
    requires forall u | u in s.replicas && u !in users :: Drained(s.replicas[u])
    ensures Run(s, steps) && forall i | 0 <= i < |steps| :: Lands(steps[i])
    ensures var t := After(s, steps); SameServer(s, t) && forall u | u in t.replicas :: Drained(t.replicas[u])
    decreases |users|
  {
    steps := [];
    if users != {} {
      var u := OrderedKeys.Pick(users);
      var first := Drain(s, u);
      var rest := DrainAll(After(s, first), users - {u});
      RunConcat(s, first, rest);
      steps := first + rest;
    }
  }

  /** From every state the system can reach rest without executing anything more: the flight lands in order. */
  lemma {:induction false} Settle(s: State) returns (steps: seq<Step>)
    ensures Run(s, steps) && forall i | 0 <= i < |steps| :: Lands(steps[i])
    ensures var t := After(s, steps);
            && Quiescent(t) && t.board == s.board && t.executed == s.executed
            && SameHandlers(s, t) && SameOrigins(s, t)
            && t.broadcast == s.broadcast + s.pending
    decreases |s.pending|
  {
    if s.pending == [] {
      steps := DrainAll(s, s.replicas.Keys);
    } else {
      hide NewReplica, Apply, ServerApply, Quiescent;
      var next := Next(s, Broadcast(0));
      assert SameHandlers(s, next) && SameOrigins(s, next);
      assert next.broadcast + next.pending == s.broadcast + s.pending;
      hide Sent;
      var rest := Settle(next);
      RunMore(s, Broadcast(0), rest);
      steps := [Broadcast(0)] + rest;
    }
  }
}

/** What every step of the protocol keeps, in every interleaving and for every package. */
module Invariants {
  import opened Packages
  import opened Boards
  import opened Commands
  import opened Reordering
  import opened Protocol

  // ---------------------------------------------------------------- the commands of one user

  function Of(log: seq<Event>, user: int): seq<Package> {
    if log == [] then []
    else
      var init, last := Of(log[..|log| - 1], user), log[|log| - 1];
      if last.user == user then init + [last.pkg] else init
  }

  lemma OfAppend(log: seq<Event>, e: Event, user: int)
    ensures Of(log + [e], user) == Of(log, user) + (if e.user == user then [e.pkg] else [])
  {
    assert (log + [e])[..|log|] == log;
  }

  lemma {:induction false} OfStranger(log: seq<Event>, user: int)
    requires forall i | 0 <= i < |log| :: log[i].user != user
    ensures Of(log, user) == []
  {
    if log != [] {
      OfStranger(log[..|log| - 1], user);
    }
  }

  lemma {:induction false} OfConcat(a: seq<Event>, b: seq<Event>, user: int)
    ensures Of(a + b, user) == Of(a, user) + Of(b, user)
  {
    if b == [] {
      assert a + b == a;
    } else {
      var init, last := b[..|b| - 1], b[|b| - 1];
      assert a + b == (a + init) + [last] && b == init + [last];
      OfConcat(a, init, user);
      OfAppend(a + init, last, user);
      OfAppend(init, last, user);
    }
  }

  lemma {:induction false} OfHas(log: seq<Event>, i: nat) returns (a: nat)
    requires i < |log|
    ensures a < |Of(log, log[i].user)| && Of(log, log[i].user)[a] == log[i].pkg
  {
    if i == |log| - 1 {
      a := |Of(log, log[i].user)| - 1;
    } else {
      a := OfHas(log[..|log| - 1], i);
    }
  }

  ghost predicate OneSlotEach(log: seq<Event>) {
    forall i, j | 0 <= i < j < |log| :: log[i].user != log[j].user
  }

  /** A user's pending command is all that the pending list holds of that user. */
  lemma OfSlot(log: seq<Event>, at: nat, user: int)
    requires at < |log| && OneSlotEach(log)
    ensures Of(log, user) == if user == log[at].user then [log[at].pkg] else Of(Without(log, at), user)
    ensures user == log[at].user ==> Of(Without(log, at), user) == []
  {
    var a, b := log[..at], log[at + 1..];
    assert log == (a + [log[at]]) + b;
    OfConcat(a + [log[at]], b, user);
    OfAppend(a, log[at], user);
    OfConcat(a, b, user);
    if user == log[at].user {
      OfStranger(a, user);
      OfStranger(b, user);
    }
  }

  // ---------------------------------------------------------------- conservation and program order

  ghost predicate UsersKnown(s: State) {
    && 0 <= s.nextUser
    && (forall u | u in s.handlers :: 0 <= u < s.nextUser)
    && (forall u | u in s.replicas :: u in s.handlers)
    && (forall i | 0 <= i < |s.executed| :: 0 <= s.executed[i].user < s.nextUser)
    && (forall i | 0 <= i < |s.pending| :: s.pending[i].user in s.handlers)
  }

  /**
   Each user's packages are executed and broadcast in the order they were received: what was received is what has
   been broadcast, then at most one package in flight, then the buffer.
   */
  ghost predicate ProgramOrder(s: State) {
    && OneSlotEach(s.pending)
    && (forall u | u in s.handlers :: s.handlers[u].received == Of(s.executed, u) + s.handlers[u].buffer)
    && (forall u {:trigger Of(s.executed, u)} :: Of(s.executed, u) == Of(s.broadcast, u) + Of(s.pending, u))
  }

  lemma UsersKnownKept(s: State, step: Step)
    requires UsersKnown(s) && Enabled(s, step)
    ensures UsersKnown(Next(s, step))
  {
    hide NewReplica, ServerApply, Stamp;
    match step
    case Execute(u) =>
      var t := Executed(s, u);
      assert forall i | 0 <= i < |s.executed| :: t.executed[i] == s.executed[i];
      assert forall i | 0 <= i < |s.pending| :: t.pending[i] == s.pending[i];
    case Broadcast(at) =>
      var t := Sent(s, at);
      assert forall i | 0 <= i < |t.pending| :: t.pending[i] == s.pending[if i < at then i else i + 1];
    case _ =>
  }

  lemma ProgramOrderExecuted(s: State, u: int)
    requires ProgramOrder(s) && u in s.handlers && Idle(s, u) && s.handlers[u].buffer != []
    ensures ProgramOrder(Executed(s, u))
  {
    var s' := Executed(s, u);
    var e := Event(u, s.handlers[u].buffer[0], |s.executed|, |s.broadcast|);
    OfStranger(s.pending, u);
    forall v
      ensures Of(s'.executed, v) == Of(s'.broadcast, v) + Of(s'.pending, v)
      ensures v in s'.handlers ==> s'.handlers[v].received == Of(s'.executed, v) + s'.handlers[v].buffer
    {
      OfAppend(s.executed, e, v);
      OfAppend(s.pending, e, v);
    }
  }

  lemma ProgramOrderSent(s: State, at: nat)
    requires ProgramOrder(s) && at < |s.pending|
    ensures ProgramOrder(Sent(s, at))
  {
    var s' := Sent(s, at);
    forall v
      ensures Of(s'.executed, v) == Of(s'.broadcast, v) + Of(s'.pending, v)
    {
      OfSlot(s.pending, at, v);
      OfAppend(s.broadcast, s.pending[at], v);
    }
  }

  lemma ProgramOrderKept(s: State, step: Step)
    requires UsersKnown(s) && ProgramOrder(s) && Enabled(s, step)
    ensures ProgramOrder(Next(s, step))
  {
    hide NewReplica, Of;
    match step
    case Connect => OfStranger(s.executed, s.nextUser);
    case Execute(u) => ProgramOrderExecuted(s, u);
    case Broadcast(at) => ProgramOrderSent(s, at);
    case _ =>
  }

  // ---------------------------------------------------------------- the two logs

  /** The broadcast log and the pending list together hold every executed command once. */
  ghost predicate Numbered(s: State) {
    && (forall i | 0 <= i < |s.executed| :: s.executed[i].num == i)
    && (forall i | 0 <= i < |s.pending| :: s.pending[i].num < |s.executed| && s.executed[s.pending[i].num] == s.pending[i])
    && (forall i | 0 <= i < |s.broadcast| :: s.broadcast[i].num < |s.executed| && s.executed[s.broadcast[i].num] == s.broadcast[i])
    && (forall i, j | 0 <= i < j < |s.pending| :: s.pending[i].num < s.pending[j].num)
    && (forall i, j | 0 <= i < j < |s.broadcast| :: s.broadcast[i].num != s.broadcast[j].num)
    && (forall i, j | 0 <= i < |s.broadcast| && 0 <= j < |s.pending| :: s.broadcast[i].num != s.pending[j].num)
    && |s.executed| == |s.broadcast| + |s.pending|
  }

  /** A command broadcast before another one was executed comes before it in the execute log and in the broadcast log. */
  ghost predicate Ordered(s: State) {
    && (forall i | 0 <= i < |s.executed| :: s.executed[i].seen <= |s.broadcast|)
    && (forall i | 0 <= i < |s.broadcast| :: s.broadcast[i].seen <= i)
    && (forall i, a | 0 <= i < |s.executed| && 0 <= a < s.executed[i].seen :: s.broadcast[a].num < i)
  }

  ghost predicate Windows(s: State) {
    Numbered(s) && Ordered(s)
  }

  lemma NumberedSent(s: State, at: nat)
    requires Numbered(s) && at < |s.pending|
    ensures Numbered(Sent(s, at))
  {
    var s' := Sent(s, at);
    assert forall i | 0 <= i < |s'.pending| :: s'.pending[i] == s.pending[if i < at then i else i + 1];
  }

  lemma OrderedSent(s: State, at: nat)
    requires Numbered(s) && Ordered(s) && at < |s.pending|
    ensures Ordered(Sent(s, at))
  {
    var s' := Sent(s, at);
    assert s.executed[s.pending[at].num] == s.pending[at];
    assert forall i | 0 <= i < |s.broadcast| :: s'.broadcast[i] == s.broadcast[i];
  }

  lemma WindowsExecuted(s: State, u: int)
    requires Windows(s) && u in s.handlers && s.handlers[u].buffer != []
    ensures Windows(Executed(s, u))
  {
    var s' := Executed(s, u);
    assert forall i | 0 <= i < |s.executed| :: s'.executed[i] == s.executed[i];
    assert forall i | 0 <= i < |s.pending| :: s'.pending[i] == s.pending[i];
  }

  lemma WindowsKept(s: State, step: Step)
    requires Windows(s) && Enabled(s, step)
    ensures Windows(Next(s, step))
  {
    match step
    case Execute(u) => WindowsExecuted(s, u);
    case Broadcast(at) =>
      NumberedSent(s, at);
      OrderedSent(s, at);
    case _ =>
      var s' := Next(s, step);
      assert s'.executed == s.executed && s'.pending == s.pending && s'.broadcast == s.broadcast;
  }

  /** A command whose broadcast precedes another's execution comes first in both logs. */
  lemma FirstInBothLogs(s: State, a: nat, b: nat)
    requires Windows(s) && a < |s.broadcast| && b < |s.broadcast|
    requires a < s.broadcast[b].seen
    ensures a < b && s.broadcast[a].num < s.broadcast[b].num
  {
    assert s.executed[s.broadcast[b].num] == s.broadcast[b];
  }

  // ---------------------------------------------------------------- draw ids

  ghost predicate OwnId(s: State, u: int, p: Package) {
    p.Insert? ==> p.data.drawId in s.issued && s.issued[p.data.drawId] == u
  }

  /**
   No two inserts get the same draw id, each user's inserts get ascending ids, and the server's board holds ids
   that have been issued, under the key that the item itself carries.
   */
  ghost predicate FreshIds(s: State) {
    && (forall k :: k in s.issued <==> 0 <= k < s.nextId)
    && 0 <= s.nextId
    && (forall k | k in s.board :: k in s.issued && s.board[k].drawId == k)
    && (forall i | 0 <= i < |s.executed| :: OwnId(s, s.executed[i].user, s.executed[i].pkg))
    && (forall u, i | u in s.handlers && 0 <= i < |s.handlers[u].received| :: OwnId(s, u, s.handlers[u].received[i]))
    && (forall u | u in s.handlers :: InsertIdsAscend(s.handlers[u].received))
    && (forall i, j | 0 <= i < j < |s.executed| :: DistinctInserts(s.executed[i].pkg, s.executed[j].pkg))
  }

  ghost predicate DistinctInserts(p: Package, q: Package) {
    p.Insert? && q.Insert? ==> p.data.drawId != q.data.drawId
  }

  ghost predicate InsertIdsAscend(ps: seq<Package>) {
    forall i, j | 0 <= i < j < |ps| && ps[i].Insert? && ps[j].Insert? :: ps[i].data.drawId < ps[j].data.drawId
  }

  lemma FreshIdsReceived(s: State, u: int, p: Package)
    requires FreshIds(s) && u in s.handlers
    ensures FreshIds(Received(s, u, p))
  {
    var s' := Received(s, u, p);
    assert s.nextId !in s.issued;
    var got, got' := s.handlers[u].received, s'.handlers[u].received;
    assert forall i | 0 <= i < |got| :: got'[i] == got[i] && OwnId(s, u, got[i]);
  }

  lemma FreshIdsExecuted(s: State, u: int)
    requires ProgramOrder(s) && FreshIds(s) && u in s.handlers && s.handlers[u].buffer != []
    ensures FreshIds(Executed(s, u))
  {
    var s' := Executed(s, u);
    var h := s.handlers[u];
    var p := h.buffer[0];
    var mark := |Of(s.executed, u)|;
    assert h.received[mark] == p && OwnId(s, u, h.received[mark]);
    forall i | 0 <= i < |s.executed|
      ensures DistinctInserts(s.executed[i].pkg, p)
    {
      assert OwnId(s, s.executed[i].user, s.executed[i].pkg);
      if s.executed[i].user == u {
        var a := OfHas(s.executed, i);
        assert h.received[a] == s.executed[i].pkg;
      }
    }
    assert forall i | 0 <= i < |s.executed| :: s'.executed[i] == s.executed[i];
    assert forall k | k in s'.board :: k in s.issued && s'.board[k].drawId == k;
  }

  lemma FreshIdsFrame(s: State, s': State)
    requires FreshIds(s)
    requires s'.executed == s.executed && s'.board == s.board && s'.issued == s.issued && s'.nextId == s.nextId
    requires forall u | u in s'.handlers ::
               s'.handlers[u].received == if u in s.handlers then s.handlers[u].received else []
    ensures FreshIds(s')
  {
    forall u | u in s'.handlers
      ensures InsertIdsAscend(s'.handlers[u].received)
      ensures forall i | 0 <= i < |s'.handlers[u].received| :: OwnId(s', u, s'.handlers[u].received[i])
    {
      if u in s.handlers {
        assert forall i | 0 <= i < |s.handlers[u].received| :: OwnId(s, u, s.handlers[u].received[i]);
      }
    }
    assert forall i | 0 <= i < |s.executed| :: OwnId(s, s.executed[i].user, s.executed[i].pkg);
  }

  lemma FreshIdsKept(s: State, step: Step)
    requires UsersKnown(s) && ProgramOrder(s) && FreshIds(s) && Enabled(s, step)
    ensures FreshIds(Next(s, step))
  {
    match step
    case Receive(u, p) => FreshIdsReceived(s, u, p);
    case Execute(u) => FreshIdsExecuted(s, u);
    case _ =>
      FreshIdsFrame(s, Next(s, step));
  }

  // ---------------------------------------------------------------- the replicas

  /** What a client has applied, queued and still in its socket is its snapshot and the broadcast log since. */
  ghost predicate Follows(r: Replica, log: seq<Event>) {
    && r.joined <= |log|
    && r.applied + r.queue + r.channel == [Bulk(r.snapshot)] + PackagesOf(log[r.joined..])
    && r.list == Replay(r.applied, map[])
    && Keyed(r.list)
  }

  ghost predicate ReplicasFollow(s: State) {
    forall u | u in s.replicas :: Follows(s.replicas[u], s.broadcast)
  }

  lemma NewReplicaFollows(s: State)
    ensures Follows(NewReplica(s), s.broadcast)
  {
    assert s.broadcast[|s.broadcast|..] == [];
  }

  lemma FollowsSent(r: Replica, log: seq<Event>, e: Event)
    requires Follows(r, log)
    ensures Follows(r.(channel := r.channel + [e.pkg]), log + [e])
  {
    var tail := log[r.joined..];
    assert (log + [e])[r.joined..] == tail + [e];
    assert PackagesOf(tail + [e]) == PackagesOf(tail) + [e.pkg];
    assert r.applied + r.queue + (r.channel + [e.pkg]) == (r.applied + r.queue + r.channel) + [e.pkg];
  }

  lemma FollowsConsumed(r: Replica, log: seq<Event>)
    requires Follows(r, log) && r.queue != []
    ensures var p := r.queue[0];
            Follows(r.(applied := r.applied + [p], queue := r.queue[1..], list := Apply(p, r.list)), log)
  {
    ReplayLast(r.applied, r.queue[0], map[]);
    ApplyKeepsKeyed(r.queue[0], r.list);
    assert r.applied + r.queue == (r.applied + [r.queue[0]]) + r.queue[1..];
  }

  lemma FollowsEnqueued(r: Replica, log: seq<Event>)
    requires Follows(r, log) && r.channel != []
    ensures Follows(r.(queue := r.queue + [r.channel[0]], channel := r.channel[1..]), log)
  {
    assert r.queue + r.channel == (r.queue + [r.channel[0]]) + r.channel[1..];
    assert r.applied + r.queue + r.channel == r.applied + (r.queue + r.channel);
    assert r.applied + (r.queue + [r.channel[0]]) + r.channel[1..]
        == r.applied + ((r.queue + [r.channel[0]]) + r.channel[1..]);
  }

  lemma ReplicasFollowKept(s: State, step: Step)
    requires ReplicasFollow(s) && Enabled(s, step)
    ensures ReplicasFollow(Next(s, step))
  {
    hide Follows, Apply, ServerApply, NewReplica;
    var s' := Next(s, step);
    match step
    case Connect => NewReplicaFollows(s);
    case Reconnect(_) => NewReplicaFollows(s);
    case Broadcast(at) =>
      forall u | u in s'.replicas
        ensures Follows(s'.replicas[u], s'.broadcast)
      {
        FollowsSent(s.replicas[u], s.broadcast, s.pending[at]);
      }
    case Consume(u) => FollowsConsumed(s.replicas[u], s.broadcast);
    case Enqueue(u) => FollowsEnqueued(s.replicas[u], s.broadcast);
    case _ =>
  }

  // ---------------------------------------------------------------- all of them, in every run

  ghost predicate Inv(s: State) {
    UsersKnown(s) && ProgramOrder(s) && Windows(s) && FreshIds(s) && ReplicasFollow(s)
  }

  lemma InvInit()
    ensures Inv(INIT)
  {
  }

  lemma InvKept(s: State, step: Step)
    requires Inv(s) && Enabled(s, step)
    ensures Inv(Next(s, step))
  {
    UsersKnownKept(s, step);
    ProgramOrderKept(s, step);
    WindowsKept(s, step);
    FreshIdsKept(s, step);
    ReplicasFollowKept(s, step);
  }

  lemma {:induction false} InvAlways(s: State, steps: seq<Step>)
    requires Inv(s) && Run(s, steps)
    ensures Inv(After(s, steps))
    decreases |steps|
  {
    if steps != [] {
      InvKept(s, steps[0]);
      InvAlways(Next(s, steps[0]), steps[1..]);
    }
  }

  /**
   While a handler lives, what it received is exactly what has been broadcast for it, then at most one package in
   flight, then its buffer; what has been executed for it differs from what has been broadcast by that one package.
   */
  lemma CommandsConserved(steps: seq<Step>, u: int)
    requires Run(INIT, steps) && u in After(INIT, steps).handlers
    ensures var s := After(INIT, steps);
            && s.handlers[u].received == Of(s.broadcast, u) + Of(s.pending, u) + s.handlers[u].buffer
            && Of(s.executed, u) == Of(s.broadcast, u) + Of(s.pending, u)
            && |Of(s.pending, u)| <= 1
  {
    hide Run, After, Of;
    InvInit();
    InvAlways(INIT, steps);
    AtMostOneSlot(After(INIT, steps).pending, u);
  }

  lemma AtMostOneSlot(log: seq<Event>, u: int)
    requires OneSlotEach(log)
    ensures |Of(log, u)| <= 1
  {
    if i :| 0 <= i < |log| && log[i].user == u {
      OfSlot(log, i, u);
    } else {
      OfStranger(log, u);
    }
  }

  /** No two inserts that were ever received and are still known share a draw id; ids grow in each user's send order. */
  lemma InsertIdsUnique(steps: seq<Step>, u: int, i: nat, v: int, j: nat)
    requires Run(INIT, steps) && u in After(INIT, steps).handlers && v in After(INIT, steps).handlers
    requires i < |After(INIT, steps).handlers[u].received| && j < |After(INIT, steps).handlers[v].received|
    requires After(INIT, steps).handlers[u].received[i].Insert? && After(INIT, steps).handlers[v].received[j].Insert?
    ensures var s := After(INIT, steps);
            var p, q := s.handlers[u].received[i].data, s.handlers[v].received[j].data;
            && 0 <= p.drawId < s.nextId
            && (p.drawId == q.drawId ==> u == v && i == j)
            && (u == v && i < j ==> p.drawId < q.drawId)
  {
    hide Run, After, ProgramOrder, Windows, ReplicasFollow;
    InvInit();
    InvAlways(INIT, steps);
    var s := After(INIT, steps);
    assert OwnId(s, u, s.handlers[u].received[i]) && OwnId(s, v, s.handlers[v].received[j]);
  }

  lemma IdsStep(s: State, step: Step)
    requires Enabled(s, step) && FreshIds(s)
    ensures s.nextId <= Next(s, step).nextId
    ensures forall k | k in s.issued :: k in Next(s, step).issued && Next(s, step).issued[k] == s.issued[k]
  {
    hide NewReplica, ServerApply;
    assert s.nextId !in s.issued;
  }

  lemma {:induction false} IdsGrow(s: State, steps: seq<Step>)
    requires Inv(s) && Run(s, steps)
    ensures s.nextId <= After(s, steps).nextId
    ensures forall k | k in s.issued :: k in After(s, steps).issued && After(s, steps).issued[k] == s.issued[k]
    decreases |steps|
  {
    if steps != [] {
      IdsStep(s, steps[0]);
      InvKept(s, steps[0]);
      hide Enabled, Next, Inv;
      IdsGrow(Next(s, steps[0]), steps[1..]);
    }
  }

  /**
   An insert gets an id that no insert was given before, and that none is given afterwards, whoever leaves in the
   meantime: a later insert is given `nextId` of a later state.
   */
  lemma StampedOnce(before: seq<Step>, u: int, data: DrawData, after: seq<Step>)
    requires Run(INIT, before) && Enabled(After(INIT, before), Receive(u, Insert(data)))
    requires Run(Next(After(INIT, before), Receive(u, Insert(data))), after)
    ensures var s, p := After(INIT, before), Receive(u, Insert(data));
            var id, got, t := s.nextId, Next(s, p).handlers[u].received, After(Next(s, p), after);
            && got == s.handlers[u].received + [Insert(data.(drawId := id))]
            && id !in s.issued && id !in s.board
            && (forall i | 0 <= i < |s.executed| && s.executed[i].pkg.Insert? :: s.executed[i].pkg.data.drawId < id)
            && id < t.nextId && id in t.issued && t.issued[id] == u
  {
    hide Run, After, ProgramOrder, Windows, ReplicasFollow;
    var s := After(INIT, before);
    InvInit();
    InvAlways(INIT, before);
    InvKept(s, Receive(u, Insert(data)));
    IdsGrow(Next(s, Receive(u, Insert(data))), after);
    forall i | 0 <= i < |s.executed| && s.executed[i].pkg.Insert?
      ensures s.executed[i].pkg.data.drawId < s.nextId
    {
      assert OwnId(s, s.executed[i].user, s.executed[i].pkg);
    }
  }
}

/** The client's message queue and the two loops that empty it. */
module Clients {
  import opened Packages
  import opened Boards
  import opened DrawLists
  import opened Commands

  function Flatten(batches: seq<seq<Package>>): seq<Package> {
    if batches == [] then [] else batches[0] + Flatten(batches[1..])
  }

  /** A round of a loop: the frames that are in the queue, and whether another thread sets the kill flag meanwhile. */
  datatype Round = Round(frames: seq<Package>, killed: bool)

  predicate Kills(batch: seq<Package>) {
    exists p | p in batch :: p.Error?
  }

  /** An error package sets the kill flag as well; it is read before the next round. */
  predicate Ends(round: Round) {
    round.killed || Kills(round.frames)
  }

  predicate Ended(rounds: seq<Round>) {
    exists i | 0 <= i < |rounds| :: Ends(rounds[i])
  }

  lemma OneMoreRound(rounds: seq<Round>, i: nat)
    requires i < |rounds|
    ensures Ended(rounds[..i + 1]) == (Ended(rounds[..i]) || Ends(rounds[i]))
  {
    var more := rounds[..i + 1];
    assert forall j | 0 <= j < i :: more[j] == rounds[..i][j];
    assert more[i] == rounds[i];
  }

  lemma EndedStays(rounds: seq<Round>, i: nat)
    requires i <= |rounds|
    ensures Ended(rounds[..i]) ==> Ended(rounds)
    ensures rounds[..|rounds|] == rounds && !Ended(rounds[..0])
  {
    if j :| 0 <= j < i && Ends(rounds[..i][j]) {
      assert Ends(rounds[j]);
    }
  }

  /** The frames of the rounds that the loop runs. */
  function RoundsRun(rounds: seq<Round>): seq<seq<Package>> {
    if rounds == [] then []
    else if Ends(rounds[0]) then [rounds[0].frames]
    else [rounds[0].frames] + RoundsRun(rounds[1..])
  }

  /**
   A loop runs up to and including the first round in which a kill flag is set or an error package arrives, and all
   rounds if there is none.
   */
  lemma {:induction false} RoundsRunExactly(rounds: seq<Round>, n: nat)
    requires n <= |rounds| && forall i | 0 <= i < n :: !rounds[i].killed && forall p | p in rounds[i].frames :: !p.Error?
    requires n < |rounds| ==> rounds[n].killed || exists p :: p in rounds[n].frames && p.Error?
    ensures |RoundsRun(rounds)| == if n < |rounds| then n + 1 else n
    ensures forall i | 0 <= i < |RoundsRun(rounds)| :: RoundsRun(rounds)[i] == rounds[i].frames
    decreases n
  {
    if n > 0 {
      assert forall i | 0 <= i < |rounds[1..]| :: rounds[1..][i] == rounds[i + 1];
      assert rounds[0] in rounds && !Ends(rounds[0]);
      RoundsRunExactly(rounds[1..], n - 1);
    }
  }

  /** The package left in the loop's variable after a round. */
  function LastOf(batch: seq<Package>, last: Package): Package {
    if batch == [] then last else batch[|batch| - 1]
  }

  /** What the test loop executes: after each round, the last package once more. */
  function WithSpins(batches: seq<seq<Package>>, last: Package): seq<Package> {
    if batches == [] then []
    else
      var last' := LastOf(batches[0], last);
      batches[0] + [last'] + WithSpins(batches[1..], last')
  }

  class Client {
    const drawList: DrawList
    var messageQueue: seq<Package>
    var shouldRender: bool
    var killFlag: bool

    constructor ()
      ensures fresh(drawList) && drawList.dataMap == map[]
      ensures messageQueue == [] && shouldRender && !killFlag
    {
      drawList := new DrawList();
      messageQueue, shouldRender, killFlag := [], true, false;
    }

    /** The reader thread: a frame goes from the socket to the back of the queue. */
    method PushMessage(message: Package)
      modifies this`messageQueue
      ensures messageQueue == old(messageQueue) + [message]
    {
      messageQueue := messageQueue + [message];
    }

    method ExecuteCommand(package: Package)
      modifies drawList, this`shouldRender, this`killFlag
      ensures drawList.dataMap == Apply(package, old(drawList.dataMap))
      ensures shouldRender == (old(shouldRender) || !Silent(package))
      ensures killFlag == (old(killFlag) || package.Error?)
    {
      match package
      case Invalid =>
      case Insert(data) =>
        drawList.Insert(data);
        shouldRender := true;
      case Edit(id, data) =>
        drawList.Edit(id, data);
        shouldRender := true;
      case Remove(id) =>
        drawList.Erase(id);
        shouldRender := true;
      case Clear(user) =>
        drawList.Clear(user);
        shouldRender := true;
      case Undo(user) =>
        drawList.Undo(user);
        shouldRender := true;
      case Bulk(items) =>
        drawList.Load(items);
        shouldRender := true;
      case Error(_) =>
        killFlag := true;
      case Generic(_) =>
    }

    /** The inner loop: pops and executes until the queue is empty, even once the kill flag is set. */
    method DrainQueue(package: Package) returns (last: Package)
      modifies this, drawList
      ensures messageQueue == [] && last == LastOf(old(messageQueue), package)
      ensures drawList.dataMap == Replay(old(messageQueue), old(drawList.dataMap))
      ensures killFlag == (old(killFlag) || Kills(old(messageQueue)))
    {
      last := package;
      ghost var done := [];
      while messageQueue != []
        invariant done + messageQueue == old(messageQueue)
        invariant last == LastOf(done, package)
        invariant drawList.dataMap == Replay(done, old(drawList.dataMap))
        invariant killFlag == (old(killFlag) || Kills(done))
        decreases |messageQueue|
      {
        last := messageQueue[0];
        messageQueue := messageQueue[1..];
        ExecuteCommand(last);
        ReplayLast(done, last, old(drawList.dataMap));
        done := done + [last];
      }
      assert done == old(messageQueue);
    }

    /** `render_loop` without the window. */
    method RenderLoop(rounds: seq<Round>)
      requires !killFlag && messageQueue == []
      modifies this, drawList
      ensures drawList.dataMap == Replay(Flatten(RoundsRun(rounds)), old(drawList.dataMap))
      ensures killFlag == Ended(rounds)
    {
      hide Apply, Replay, Flatten, RoundsRun, WithSpins, LastOf, Silent, Kills, Ended;
      var i, package := 0, Invalid;
      ghost var done: seq<Package> := [];
      ghost var was := drawList.dataMap;
      assert rounds[0..] == rounds;
      NoRounds(was);
      EndedStays(rounds, 0);
      while !killFlag && i < |rounds|
        invariant i <= |rounds| && messageQueue == []
        invariant drawList.dataMap == Replay(done, was)
        invariant Flatten(RoundsRun(rounds)) == done + (if killFlag then [] else Flatten(RoundsRun(rounds[i..])))
        invariant killFlag == Ended(rounds[..i])
        decreases |rounds| - i
      {
        messageQueue := messageQueue + rounds[i].frames;
        assert messageQueue == rounds[i].frames;
        package := DrainQueue(package);
        killFlag := killFlag || rounds[i].killed;
        ReplayConcat(done, rounds[i].frames, was);
        FlattenRound(rounds[i..]);
        OneMoreRound(rounds, i);
        assert rounds[i..][1..] == rounds[i + 1..];
        done := done + rounds[i].frames;
        i := i + 1;
      }
      assert done + [] == done && (!killFlag ==> rounds[i..] == []);
      EndedStays(rounds, i);
    }

    /** One round of `render_test_loop`: drains the queue, then executes the last package again. */
    method TestRound(package: Package) returns (last: Package)
      requires !killFlag && !package.Error?
      modifies this, drawList
      ensures messageQueue == [] && last == LastOf(old(messageQueue), package)
      ensures drawList.dataMap == Replay(old(messageQueue) + [last], old(drawList.dataMap))
      ensures killFlag == Kills(old(messageQueue)) && (!killFlag ==> !last.Error?)
    {
      hide Apply, Replay;
      last := DrainQueue(package);
      NotKilled(old(messageQueue), package, last);
      ExecuteCommand(last);
      ReplayLast(old(messageQueue), last, old(drawList.dataMap));
    }

    method RenderTestLoop(rounds: seq<Round>)
      requires !killFlag && messageQueue == []
      modifies this, drawList
      ensures drawList.dataMap == Replay(WithSpins(RoundsRun(rounds), Invalid), old(drawList.dataMap))
    {
      hide Apply, Replay, Flatten, RoundsRun, WithSpins, LastOf, Kills;
      var i, package := 0, Invalid;
      ghost var done: seq<Package> := [];
      ghost var was := drawList.dataMap;
      assert rounds[0..] == rounds;
      NoRounds(was);
      while !killFlag && i < |rounds|
        invariant i <= |rounds| && messageQueue == []
        invariant drawList.dataMap == Replay(done, was)
        invariant !killFlag ==> !package.Error?
        invariant WithSpins(RoundsRun(rounds), Invalid)
               == done + (if killFlag then [] else WithSpins(RoundsRun(rounds[i..]), package))
        decreases |rounds| - i
      {
        var batch := rounds[i].frames;
        messageQueue := messageQueue + batch;
        assert messageQueue == batch;
        SpinsRound(rounds[i..], package);
        package := TestRound(package);
        killFlag := killFlag || rounds[i].killed;
        ReplayConcat(done, batch + [package], was);
        assert rounds[i..][1..] == rounds[i + 1..];
        done := done + (batch + [package]);
        i := i + 1;
      }
      assert done + [] == done && (!killFlag ==> rounds[i..] == []);
    }
  }

  lemma NoRounds(m: Board)
    ensures Flatten(RoundsRun([])) == [] && Replay([], m) == m
    ensures forall last {:trigger WithSpins(RoundsRun([]), last)} :: WithSpins(RoundsRun([]), last) == []
  {
  }

  /** The last package is an error only if the kill flag is already set. */
  lemma NotKilled(batch: seq<Package>, before: Package, last: Package)
    requires last == LastOf(batch, before) && !before.Error?
    ensures last.Error? ==> Kills(batch)
  {
  }

  lemma FlattenRound(rounds: seq<Round>)
    requires rounds != []
    ensures Flatten(RoundsRun(rounds))
         == rounds[0].frames + (if Ends(rounds[0]) then [] else Flatten(RoundsRun(rounds[1..])))
  {
    assert [rounds[0].frames][1..] == [];
    assert ([rounds[0].frames] + RoundsRun(rounds[1..]))[1..] == RoundsRun(rounds[1..]);
  }

  lemma SpinsRound(rounds: seq<Round>, last: Package)
    requires rounds != []
    ensures WithSpins(RoundsRun(rounds), last)
         == rounds[0].frames + [LastOf(rounds[0].frames, last)]
            + (if Ends(rounds[0]) then [] else WithSpins(RoundsRun(rounds[1..]), LastOf(rounds[0].frames, last)))
  {
    assert [rounds[0].frames][1..] == [];
    assert ([rounds[0].frames] + RoundsRun(rounds[1..]))[1..] == RoundsRun(rounds[1..]);
  }

  // ---------------------------------------------------------------- the test loop's extra executions

  /** Without undo, the test loop builds the board that the render loop builds, however often it spins. */
  lemma {:induction false} SpinsHarmless(batches: seq<seq<Package>>, last: Package, m: Board)
    requires forall i, p | 0 <= i < |batches| && p in batches[i] :: !p.Undo?
    requires !last.Undo? && Apply(last, m) == m
    ensures Replay(WithSpins(batches, last), m) == Replay(Flatten(batches), m)
  {
    if batches != [] {
      var batch, rest := batches[0], batches[1..];
      var last', m' := LastOf(batch, last), Replay(batch, m);
      if batch != [] {
        assert batch == batch[..|batch| - 1] + [last'];
        assert last' in batches[0];
        ReplayLast(batch[..|batch| - 1], last', m);
        ApplyTwice(last', Replay(batch[..|batch| - 1], m));
      }
      ReplayLast(batch, last', m);
      ReplayConcat(batch + [last'], WithSpins(rest, last'), m);
      ReplayConcat(batch, Flatten(rest), m);
      assert forall i | 0 <= i < |rest| :: rest[i] == batches[i + 1];
      SpinsHarmless(rest, last', m');
    }
  }

  /** One more execution changes the board exactly when the package is an undo whose user still has items. */
  lemma SpinExactly(p: Package, m: Board)
    ensures Apply(p, Apply(p, m)) == Apply(p, m)
       <==> (p.Undo? ==> OwnedIds(Apply(p, m), p.user) == {})
  {
    if p.Undo? {
      UndoIdle(Apply(p, m), p.user);
    } else {
      ApplyTwice(p, m);
    }
  }

  function Repeat(p: Package, n: nat): seq<Package> {
    seq(n, i => p)
  }

  /** After an undo, `n` spins are `n` more undos; enough of them clear the user's items. */
  lemma {:induction false} SpinsUndoMore(user: int, n: nat, m: Board)
    ensures Replay(Repeat(Undo(user), n), m) == UndoneTimes(m, user, n)
    ensures user != EVERYONE && n >= |OwnedIds(m, user)| ==> UndoneTimes(m, user, n) == Cleared(m, user)
    decreases n
  {
    if n > 0 {
      assert Repeat(Undo(user), n)[1..] == Repeat(Undo(user), n - 1);
      SpinsUndoMore(user, n - 1, Undone(m, user));
    }
    if user != EVERYONE && n >= |OwnedIds(m, user)| {
      UndoPastEmpty(m, user, |OwnedIds(m, user)|, n);
      UndoAllIsClear(m, user);
    }
  }

  /** A round in the test loop that ends with an undo, and `n` rounds without frames after it, undo `n + 1` times more. */
  lemma TestLoopUndoes(batch: seq<Package>, user: int, n: nat, last: Package, m: Board)
    requires batch != [] && batch[|batch| - 1] == Undo(user)
    ensures Replay(WithSpins([batch] + Idle(n), last), m) == UndoneTimes(Replay(batch, m), user, n + 1)
  {
    var rest := WithSpins(Idle(n), Undo(user));
    assert ([batch] + Idle(n))[1..] == Idle(n);
    IdleSpins(n, Undo(user));
    assert [Undo(user)] + Repeat(Undo(user), n) == Repeat(Undo(user), n + 1);
    assert batch + [Undo(user)] + rest == batch + Repeat(Undo(user), n + 1);
    ReplayConcat(batch, Repeat(Undo(user), n + 1), m);
    SpinsUndoMore(user, n + 1, Replay(batch, m));
  }

  /** Rounds in which no frame arrives. */
  function Idle(n: nat): seq<seq<Package>> {
    seq(n, i => [])
  }

  lemma {:induction false} IdleSpins(n: nat, last: Package)
    ensures WithSpins(Idle(n), last) == Repeat(last, n)
  {
    if n > 0 {
      assert Idle(n)[1..] == Idle(n - 1);
      IdleSpins(n - 1, last);
      assert [last] + Repeat(last, n - 1) == Repeat(last, n);
    }
  }

  lemma UndoPastEmpty(m: Board, user: int, enough: nat, n: nat)
    requires enough == |OwnedIds(m, user)| <= n
    ensures UndoneTimes(m, user, n) == UndoneTimes(m, user, enough)
  {
    forall k
      ensures k in UndoneTimes(m, user, n) <==> k in UndoneTimes(m, user, enough)
      ensures k in UndoneTimes(m, user, n) ==> UndoneTimes(m, user, n)[k] == UndoneTimes(m, user, enough)[k]
    {
      UndoTakesTheHighest(m, user, n, k);
      UndoTakesTheHighest(m, user, enough, k);
      if k in OwnedIds(m, user) {
        SubsetSize(OwnedAbove(m, user, k), OwnedIds(m, user) - {k});
      }
    }
  }
}

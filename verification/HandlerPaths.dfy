/**
 Where a handler's steps lead, from one point at which it waits for its client to the next, and what they change for
 everybody else. Each path is a run of `Lifecycle`, and its result is the whole state.
 */
module HandlerPaths {
  import opened Registry
  import opened Lifecycle

  lemma OneStep(s: State, a: Step)
    requires Enabled(s, a)
    ensures Run(s, [a]) && After(s, [a]) == Next(s, a)
  {
    assert [a][1..] == [] && Run(Next(s, a), []);
  }

  lemma TwoSteps(s: State, a: Step, b: Step)
    requires Enabled(s, a) && Enabled(Next(s, a), b)
    ensures Run(s, [a, b]) && After(s, [a, b]) == Next(Next(s, a), b)
  {
    hide Enabled, Next;
    OneStep(Next(s, a), b);
    assert [a, b][1..] == [b];
  }

  lemma ThreeSteps(s: State, a: Step, b: Step, c: Step)
    requires Enabled(s, a) && Enabled(Next(s, a), b) && Enabled(Next(Next(s, a), b), c)
    ensures Run(s, [a, b, c]) && After(s, [a, b, c]) == Next(Next(Next(s, a), b), c)
  {
    hide Enabled, Next;
    TwoSteps(Next(s, a), b, c);
    assert [a, b, c][1..] == [b, c];
  }

  /** The state in which handler `h` alone is at another place. */
  function Moved(s: State, h: nat, place: Place): State
    requires h in s.handlers
  {
    s.(handlers := s.handlers[h := Handler(place, s.handlers[h].name, s.handlers[h].userId, s.handlers[h].isActive)])
  }

  lemma OwnName(s: State, h: nat)
    requires Owned(s) && h in s.handlers && Registered(s.handlers[h].place)
    ensures s.handlers[h].name in s.connections && s.connections[s.handlers[h].name] == h
  {
  }

  lemma EntryOwner(s: State, h: nat, name: string)
    requires Owned(s) && At(s, h, AwaitName) && name in s.connections
    ensures s.connections[name] in s.handlers && s.connections[name] != h
  {
  }

  lemma OneMore(s: State, a: Step, rest: seq<Step>)
    requires Enabled(s, a) && Run(Next(s, a), rest)
    ensures Run(s, [a] + rest) && After(s, [a] + rest) == After(Next(s, a), rest)
  {
    hide Enabled, Next;
    assert ([a] + rest)[1..] == rest;
  }

  // ---------------------------------------------------------------- single steps

  lemma PollStep(s: State, h: nat)
    requires Owned(s) && At(s, h, LoopTop)
    ensures Enabled(s, Poll(h)) && Next(s, Poll(h)) == Moved(s, h, if s.killed then Removing else Working)
  {
    OwnName(s, h);
  }

  lemma WorkStep(s: State, h: nat)
    requires At(s, h, Working)
    ensures Enabled(s, Work(h, false)) && Next(s, Work(h, false)) == Moved(s, h, Inactivity)
  {
  }

  lemma StillActive(s: State, h: nat)
    requires At(s, h, Inactivity)
    ensures Enabled(s, CheckInactivity(h, false)) && Next(s, CheckInactivity(h, false)) == Moved(s, h, LoopTop)
  {
  }

  lemma UnplugAt(s: State, h: nat)
    requires At(s, h, Removing) && s.handlers[h].name in s.connections && s.connections[s.handlers[h].name] == h
    ensures Enabled(s, Unplug(h))
    ensures Next(s, Unplug(h)) == s.(handlers := s.handlers[h := s.handlers[h].(place := Erasing, isActive := false)])
  {
  }

  lemma UnplugStep(s: State, h: nat)
    requires Owned(s) && At(s, h, Removing)
    ensures Enabled(s, Unplug(h))
    ensures Next(s, Unplug(h)) == s.(handlers := s.handlers[h := s.handlers[h].(place := Erasing, isActive := false)])
  {
    OwnName(s, h);
    UnplugAt(s, h);
  }

  lemma EraseStep(s: State, h: nat)
    requires At(s, h, Erasing)
    ensures Enabled(s, Erase(h))
    ensures Next(s, Erase(h)) == Moved(s, h, Ended).(connections := s.connections - {s.handlers[h].name})
  {
  }

  lemma NameTaken(s: State, h: nat, name: string)
    requires At(s, h, AwaitName) && name in s.connections && s.connections[name] in s.handlers && s.connections[name] != h
    requires !RecordActive(s, name)
    ensures Enabled(s, ReceiveName(h, name))
    ensures var a := Next(s, ReceiveName(h, name));
            && a == s.(handlers := s.handlers[h := s.handlers[h].(place := Named, name := name)])
            && Enabled(a, CheckName(h)) && Next(a, CheckName(h)) == Moved(a, h, CheckActive)
            && Enabled(Moved(a, h, CheckActive), CheckUser(h))
            && Next(Moved(a, h, CheckActive), CheckUser(h)) == Moved(Moved(a, h, CheckActive), h, Rejoining)
  {
  }

  lemma Revived(s: State, h: nat, g: nat)
    requires At(s, h, Rejoining) && s.handlers[h].name in s.connections && s.connections[s.handlers[h].name] == g
    requires g in s.handlers && g != h
    ensures Enabled(s, Rejoin(h))
    ensures Next(s, Rejoin(h)) == Moved(s, h, Ended).(handlers := Moved(s, h, Ended).handlers
                                                        [g := s.handlers[g].(isActive := true)])
  {
  }

  // ---------------------------------------------------------------- connecting

  /** A client with a free name is registered under it with the next user id. */
  lemma NewNameRegisters(s: State, h: nat, name: string)
    requires At(s, h, AwaitName) && name !in s.connections
    ensures var steps := [ReceiveName(h, name), CheckName(h), Register(h)];
            && Run(s, steps)
            && After(s, steps) == State(s.killed, s.nextUser + 1,
                                        s.handlers[h := Handler(LoopTop, name, s.nextUser, true)],
                                        s.connections[name := h])
  {
    ThreeSteps(s, ReceiveName(h, name), CheckName(h), Register(h));
  }

  /** Of two clients that connect under one name at the same time, the one that comes second to register is dropped. */
  lemma SecondIsDropped(s: State, h: nat, g: nat)
    requires At(s, h, Registering) && At(s, g, Registering) && h != g
    requires s.handlers[h].name == s.handlers[g].name && s.handlers[h].name !in s.connections
    ensures var steps := [Register(h), Register(g)];
            && Run(s, steps)
            && After(s, steps) == Moved(Moved(s, h, LoopTop), g, Ended).(
                                    connections := s.connections[s.handlers[h].name := h])
  {
    TwoSteps(s, Register(h), Register(g));
  }

  /** A client under the name of an active user is turned away, and nothing happens to that user. */
  lemma ActiveNameTurnedAway(s: State, h: nat, name: string)
    requires At(s, h, AwaitName) && RecordActive(s, name) && s.connections[name] != h
    ensures var steps := [ReceiveName(h, name), CheckName(h), CheckUser(h)];
            && Run(s, steps)
            && After(s, steps) == s.(handlers := s.handlers[h := s.handlers[h].(place := Ended, name := name)])
  {
    ThreeSteps(s, ReceiveName(h, name), CheckName(h), CheckUser(h));
  }

  /** A user that has gone comes back under the same name: the record is revived, and the second thread ends. */
  lemma NameRevived(s: State, h: nat, name: string)
    requires Owned(s) && At(s, h, AwaitName) && name in s.connections && !RecordActive(s, name)
    ensures var steps, g := [ReceiveName(h, name), CheckName(h), CheckUser(h), Rejoin(h)], s.connections[name];
            && Run(s, steps) && g in s.handlers && g != h
            && After(s, steps) == s.(handlers := s.handlers
                                       [g := s.handlers[g].(isActive := true)]
                                       [h := s.handlers[h].(place := Ended, name := name)])
  {
    var steps := [ReceiveName(h, name), CheckName(h), CheckUser(h), Rejoin(h)];
    var g := s.connections[name];
    EntryOwner(s, h, name);
    hide Owned, Enabled, Next, Run, After, RecordActive;
    var a := s.(handlers := s.handlers[h := s.handlers[h].(place := Named, name := name)]);
    var b := Moved(a, h, CheckActive);
    var c := Moved(a, h, Rejoining);
    NameTaken(s, h, name);
    assert Moved(b, h, Rejoining) == c;
    Revived(c, h, g);
    ThreeSteps(a, CheckName(h), CheckUser(h), Rejoin(h));
    OneMore(s, ReceiveName(h, name), [CheckName(h), CheckUser(h), Rejoin(h)]);
    assert steps == [ReceiveName(h, name)] + [CheckName(h), CheckUser(h), Rejoin(h)];
  }

  /** The waiting thread then finds its own record active and goes on where it left the loop. */
  lemma WaitIsOver(s: State, h: nat)
    requires h in s.handlers && s.handlers[h].place.WaitStatus? && s.handlers[h].isActive
    ensures Enabled(s, CheckStatus(h))
    ensures Next(s, CheckStatus(h)) == Moved(s, h, if s.handlers[h].place.late then LoopTop else Inactivity)
  {
  }

  /** A user removed in the meantime cannot be revived: the reconnecting thread ends, and nothing else happens. */
  lemma TooLateToRevive(s: State, h: nat)
    requires At(s, h, Rejoining) && s.handlers[h].name !in s.connections
    ensures Next(s, Rejoin(h)) == Moved(s, h, Ended)
  {
  }

  /** A thread whose client goes before it has sent a name ends, and nothing else happens. */
  lemma NoName(s: State, h: nat)
    requires At(s, h, AwaitName)
    ensures Enabled(s, NameLost(h)) && Next(s, NameLost(h)) == Moved(s, h, Ended)
  {
  }

  // ---------------------------------------------------------------- the loop

  /** Without a kill flag a round with a client that is there and active changes nothing at all. */
  lemma QuietRound(s: State, h: nat)
    requires Owned(s) && At(s, h, LoopTop) && !s.killed
    ensures var steps := [Poll(h), Work(h, false), CheckInactivity(h, false)];
            Run(s, steps) && After(s, steps) == s
  {
    PollStep(s, h);
    hide Enabled, Next, Run, After, Owned, Registered;
    WorkStep(Moved(s, h, Working), h);
    StillActive(Moved(s, h, Inactivity), h);
    assert Moved(Moved(s, h, Working), h, Inactivity) == Moved(s, h, Inactivity);
    assert Moved(Moved(s, h, Inactivity), h, LoopTop) == Moved(s, h, LoopTop);
    assert s.handlers[h := s.handlers[h]] == s.handlers;
    ThreeSteps(s, Poll(h), Work(h, false), CheckInactivity(h, false));
  }

  /** After the kill flag the next look at it takes the record out of the map and ends the thread. */
  lemma KilledRound(s: State, h: nat)
    requires Owned(s) && At(s, h, LoopTop) && s.killed
    ensures var steps := [Poll(h), Unplug(h), Erase(h)];
            && Run(s, steps)
            && After(s, steps) == s.(handlers := s.handlers[h := s.handlers[h].(place := Ended, isActive := false)],
                                     connections := s.connections - {s.handlers[h].name})
  {
    PollStep(s, h);
    hide Enabled, Next, Run, After, SetActive;
    var a := Next(s, Poll(h));
    OwnName(s, h);
    hide Owned, Registered;
    UnplugAt(a, h);
    EraseStep(Next(a, Unplug(h)), h);
    ThreeSteps(s, Poll(h), Unplug(h), Erase(h));
  }

  /** A client that disconnects leaves an inactive record in the map, and a handler that waits from tick zero. */
  lemma ClientLeaves(s: State, h: nat)
    requires Owned(s) && At(s, h, Working)
    ensures var steps := [Work(h, true), BeginWait(h)];
            && Run(s, steps)
            && After(s, steps) == s.(handlers := s.handlers[h := s.handlers[h].(place := WaitKill(0, false),
                                                                                isActive := false)])
  {
    TwoSteps(s, Work(h, true), BeginWait(h));
  }

  /** So does one that has been inactive for too long; it will come back to the top of the loop. */
  lemma ClientTimesOut(s: State, h: nat)
    requires Owned(s) && At(s, h, Inactivity)
    ensures var steps := [CheckInactivity(h, true), BeginWait(h)];
            && Run(s, steps)
            && After(s, steps) == s.(handlers := s.handlers[h := s.handlers[h].(place := WaitKill(0, true),
                                                                                isActive := false)])
  {
    TwoSteps(s, CheckInactivity(h, true), BeginWait(h));
  }

  /** A handler that gives up takes its own record out of the map, and nobody else's. */
  lemma GivesUp(s: State, h: nat)
    requires Owned(s) && At(s, h, Removing)
    ensures var steps := [Unplug(h), Erase(h)];
            && Run(s, steps)
            && After(s, steps) == s.(handlers := s.handlers[h := s.handlers[h].(place := Ended, isActive := false)],
                                     connections := s.connections - {s.handlers[h].name})
  {
    UnplugStep(s, h);
    hide Enabled, Next, Owned, Run, After, SetActive;
    EraseStep(Next(s, Unplug(h)), h);
    TwoSteps(s, Unplug(h), Erase(h));
  }

  /**
   However the other threads run, a wait ends in one of three ways: a kill flag is seen, the user is back, or the
   record was inactive at the end of each of 60 ticks. Only the second goes back to the loop.
   */
  lemma WaitEnds(s: State, late: bool, steps: seq<Step>, h: nat, step: Step)
    requires Owned(s) && At(s, h, WaitKill(0, late)) && Run(s, steps) && WaitsAlong(s, steps, h)
    requires Enabled(After(s, steps), step) && Own(step, h)
    requires h in After(s, steps).handlers && h in Next(After(s, steps), step).handlers
    requires !Waits(Next(After(s, steps), step).handlers[h].place)
    ensures var a, place := After(s, steps), Next(After(s, steps), step).handlers[h].place;
            if step.Tick? then a.killed && place == Removing
            else
              && step.CheckStatus?
              && (if a.handlers[h].isActive then place == (if late then LoopTop else Inactivity)
                  else place == Removing && Ticks(steps, h) == 60)
  {
    hide Run, After, WaitsAlong, UserIds;
    OwnedAlways(s, steps);
    WaitBound(s, steps, h);
    var a := After(s, steps);
    assert a.handlers[h].name in a.connections && a.handlers[h].place.tick < 60;
  }
}

/**
 The life of the handler threads as a state machine over their critical sections.

 The connection map holds pointers to records on the handlers' own stacks, so a handler must not end while its record
 is still in the map.
 */
module Lifecycle {
  import opened Registry

  /** Where a handler is. `late` says that it is reconnecting after an inactivity timeout. */
  datatype Place =
    | AwaitName
    | Named
    | CheckActive
    | Rejoining
    | Registering
    | LoopTop
    | Working
    | Inactivity
    | Disconnecting(late: bool)
    | WaitKill(tick: nat, late: bool)
    | WaitStatus(tick: nat, late: bool)
    | Removing
    | Erasing
    | Ended

  /** A handler and its record; `userId` is negative until one has been assigned. */
  datatype Handler = Handler(place: Place, name: string, userId: int, isActive: bool)

  datatype State = State(
    killed: bool, nextUser: int, handlers: map<nat, Handler>, connections: map<string, nat>)

  const INIT := State(false, 0, map[], map[])

  /** A step of handler `h`, except for `Accept` (a thread is started) and `Kill` (the server is told to exit). */
  datatype Step =
    | Accept(h: nat)
    | Kill
    | ReceiveName(h: nat, name: string)
    | NameLost(h: nat)
    | CheckName(h: nat)
    | CheckUser(h: nat)
    | Rejoin(h: nat)
    | Register(h: nat)
    | Poll(h: nat)
    | Work(h: nat, gone: bool)
    | CheckInactivity(h: nat, timedOut: bool)
    | BeginWait(h: nat)
    | Tick(h: nat)
    | CheckStatus(h: nat)
    | Unplug(h: nat)
    | Erase(h: nat)

  predicate At(s: State, h: nat, place: Place) {
    h in s.handlers && s.handlers[h].place == place
  }

  predicate Enabled(s: State, step: Step) {
    match step
    case Accept(h) => h !in s.handlers
    case Kill => true
    case ReceiveName(h, _) => At(s, h, AwaitName)
    case NameLost(h) => At(s, h, AwaitName)
    case CheckName(h) => At(s, h, Named)
    case CheckUser(h) => At(s, h, CheckActive)
    case Rejoin(h) => At(s, h, Rejoining)
    case Register(h) => At(s, h, Registering)
    case Poll(h) => At(s, h, LoopTop)
    case Work(h, _) => At(s, h, Working)
    case CheckInactivity(h, _) => At(s, h, Inactivity)
    case BeginWait(h) => h in s.handlers && s.handlers[h].place.Disconnecting?
    case Tick(h) => h in s.handlers && s.handlers[h].place.WaitKill?
    case CheckStatus(h) => h in s.handlers && s.handlers[h].place.WaitStatus?
    case Unplug(h) => At(s, h, Removing)
    case Erase(h) => At(s, h, Erasing)
  }

  function Move(s: State, h: nat, place: Place): State
    requires h in s.handlers
  {
    s.(handlers := s.handlers[h := s.handlers[h].(place := place)])
  }

  /** Writes the record that the map has under a name, if there is one. */
  function SetActive(s: State, name: string, active: bool): State {
    if name in s.connections && s.connections[name] in s.handlers then
      var owner := s.connections[name];
      s.(handlers := s.handlers[owner := s.handlers[owner].(isActive := active)])
    else s
  }

  /** `check_kill_flag` is off: the name is in the map, and the server is not exiting. */
  predicate KillOff(s: State, name: string) {
    name in s.connections && !s.killed
  }

  predicate RecordActive(s: State, name: string) {
    name in s.connections && s.connections[name] in s.handlers && s.handlers[s.connections[name]].isActive
  }

  function Next(s: State, step: Step): State
    requires Enabled(s, step)
  {
    match step
    case Accept(h) => s.(handlers := s.handlers[h := Handler(AwaitName, "", -1, false)])
    case Kill => s.(killed := true)
    case ReceiveName(h, name) => s.(handlers := s.handlers[h := s.handlers[h].(place := Named, name := name)])
    case NameLost(h) => Move(s, h, Ended)
    case CheckName(h) =>
      if s.handlers[h].name in s.connections then Move(s, h, CheckActive)
      else
        s.(handlers := s.handlers[h := s.handlers[h].(place := Registering, userId := s.nextUser, isActive := true)],
           nextUser := s.nextUser + 1)
    case CheckUser(h) => Move(s, h, if RecordActive(s, s.handlers[h].name) then Ended else Rejoining)
    case Rejoin(h) => Move(SetActive(s, s.handlers[h].name, true), h, Ended)
    case Register(h) =>
      if s.handlers[h].name in s.connections then Move(s, h, Ended)
      else Move(s.(connections := s.connections[s.handlers[h].name := h]), h, LoopTop)
    case Poll(h) => Move(s, h, if KillOff(s, s.handlers[h].name) then Working else Removing)
    case Work(h, gone) => Move(s, h, if gone then Disconnecting(false) else Inactivity)
    case CheckInactivity(h, timedOut) =>
      if timedOut then
        s.(handlers := s.handlers[h := s.handlers[h].(place := Disconnecting(true), isActive := false)])
      else Move(s, h, LoopTop)
    case BeginWait(h) =>
      if s.handlers[h].name !in s.connections then Move(s, h, Removing)
      else Move(SetActive(s, s.handlers[h].name, false), h, WaitKill(0, s.handlers[h].place.late))
    case Tick(h) =>
      var w := s.handlers[h].place;
      Move(s, h, if KillOff(s, s.handlers[h].name) then WaitStatus(w.tick, w.late) else Removing)
    case CheckStatus(h) =>
      var w := s.handlers[h].place;
      Move(s, h,
           if s.handlers[h].isActive then (if w.late then LoopTop else Inactivity)
           else if w.tick + 1 < RECONNECT_TIME then WaitKill(w.tick + 1, w.late)
           else Removing)
    case Unplug(h) => Move(SetActive(s, s.handlers[h].name, false), h, Erasing)
    case Erase(h) => Move(s.(connections := s.connections - {s.handlers[h].name}), h, Ended)
  }

  ghost predicate Run(s: State, steps: seq<Step>)
    decreases |steps|
  {
    steps == [] || (Enabled(s, steps[0]) && Run(Next(s, steps[0]), steps[1..]))
  }

  ghost function After(s: State, steps: seq<Step>): State
    requires Run(s, steps)
    decreases |steps|
  {
    if steps == [] then s else After(Next(s, steps[0]), steps[1..])
  }

  // ---------------------------------------------------------------- ownership of the records

  /** The handler has registered and has not yet taken its record out of the map. */
  predicate Registered(p: Place) {
    match p
    case AwaitName => false case Named => false case CheckActive => false
    case Rejoining => false case Registering => false case Ended => false
    case _ => true
  }

  /**
   The map and the registered handlers are in bijection: every entry points to a live handler of that name, and every
   registered handler is the one under its name.
   */
  ghost predicate Bijection(s: State) {
    && (forall name | name in s.connections ::
          && s.connections[name] in s.handlers
          && Registered(s.handlers[s.connections[name]].place)
          && s.handlers[s.connections[name]].name == name)
    && (forall h | h in s.handlers && Registered(s.handlers[h].place) ::
          s.handlers[h].name in s.connections && s.connections[s.handlers[h].name] == h)
  }

  /** A handler has a user id from the moment it goes to register, and no two handlers share one. */
  ghost predicate UserIds(s: State) {
    && 0 <= s.nextUser
    && (forall h | h in s.handlers :: s.handlers[h].userId < s.nextUser)
    && (forall h | h in s.handlers && (Registered(s.handlers[h].place) || s.handlers[h].place.Registering?) ::
          0 <= s.handlers[h].userId)
    && (forall h, g | h in s.handlers && g in s.handlers && h != g && 0 <= s.handlers[h].userId ::
          s.handlers[h].userId != s.handlers[g].userId)
  }

  ghost predicate TicksInRange(s: State) {
    forall h | h in s.handlers && Waits(s.handlers[h].place) :: s.handlers[h].place.tick < RECONNECT_TIME
  }

  ghost predicate Owned(s: State) {
    Bijection(s) && UserIds(s) && TicksInRange(s)
  }

  /** A step leaves the other handlers where they are; at most it writes their activity flag. */
  lemma OthersStay(s: State, step: Step, g: nat)
    requires Enabled(s, step) && g in s.handlers && !Own(step, g)
    ensures var t := Next(s, step);
            g in t.handlers && t.handlers[g] == s.handlers[g].(isActive := t.handlers[g].isActive)
  {
  }

  /** What a handler's own step does to its name and to the map. */
  lemma OwnMove(s: State, step: Step)
    requires Enabled(s, step) && !step.Kill? && !step.Accept?
    ensures var t, h := Next(s, step), step.h;
            && h in s.handlers && t.handlers.Keys == s.handlers.Keys
            && (t.handlers[h].name == s.handlers[h].name || step.ReceiveName?)
            && t.connections == (if step.Register? && s.handlers[h].name !in s.connections
                                 then s.connections[s.handlers[h].name := h]
                                 else if step.Erase? then s.connections - {s.handlers[h].name} else s.connections)
  {
  }

  /** Registering and erasing are the only steps with which a handler becomes, or stops being, registered. */
  lemma OwnRegistration(s: State, step: Step)
    requires Enabled(s, step) && !step.Kill? && !step.Accept?
    ensures var t, h := Next(s, step), step.h;
            && h in s.handlers && h in t.handlers
            && (Registered(t.handlers[h].place) <==>
                  if step.Register? then s.handlers[h].name !in s.connections
                  else !step.Erase? && Registered(s.handlers[h].place))
            && (step.ReceiveName? || step.Register? ==> !Registered(s.handlers[h].place))
            && (step.Register? ==> s.handlers[h].place.Registering?)
            && (step.Erase? ==> Registered(s.handlers[h].place))
  {
  }

  /** When a handler gets its user id, how far its wait has come, and who can be registered. */
  lemma OwnProgress(s: State, step: Step)
    requires Enabled(s, step) && !step.Kill? && !step.Accept?
    ensures var t, h := Next(s, step), step.h;
            && h in s.handlers && h in t.handlers
            && (if t.handlers[h].place.Registering? then t.handlers[h].userId == s.nextUser == t.nextUser - 1
                else t.handlers[h].userId == s.handlers[h].userId && t.nextUser == s.nextUser)
            && (Waits(t.handlers[h].place) && !(Waits(s.handlers[h].place) && step.Tick?) ==>
                  t.handlers[h].place.tick < RECONNECT_TIME)
            && (Waits(t.handlers[h].place) && step.Tick? && Waits(s.handlers[h].place) ==>
                  t.handlers[h].place.tick == s.handlers[h].place.tick)
            && (Registered(t.handlers[h].place) ==> Registered(s.handlers[h].place) || s.handlers[h].place.Registering?)
  {
  }

  lemma AcceptOrKill(s: State, step: Step)
    requires Owned(s) && Enabled(s, step) && (step.Accept? || step.Kill?)
    ensures Owned(Next(s, step))
  {
    if step.Accept? {
      BijectionFrame(s, Next(s, step));
    }
  }

  lemma OwnedKept(s: State, step: Step)
    requires Owned(s) && Enabled(s, step)
    ensures Owned(Next(s, step))
  {
    hide Next, Enabled, Bijection, UserIds, Registered;
    var t := Next(s, step);
    if step.Accept? || step.Kill? {
      AcceptOrKill(s, step);
    } else {
      OwnMove(s, step);
      OwnRegistration(s, step);
      OwnProgress(s, step);
      forall g | g in s.handlers && g != step.h
        ensures t.handlers[g] == s.handlers[g].(isActive := t.handlers[g].isActive)
      {
        OthersStay(s, step, g);
      }
      BijectionOwnMove(s, t, step);
      UserIdsOwnMove(s, t, step.h);
    }
  }

  lemma BijectionFrame(s: State, t: State)
    requires Bijection(s) && t.connections == s.connections && s.handlers.Keys <= t.handlers.Keys
    requires forall h | h in s.handlers ::
               (Registered(t.handlers[h].place) <==> Registered(s.handlers[h].place))
               && (Registered(s.handlers[h].place) ==> t.handlers[h].name == s.handlers[h].name)
    requires forall h | h in t.handlers && h !in s.handlers :: !Registered(t.handlers[h].place)
    ensures Bijection(t)
  {
  }

  lemma BijectionOwnMove(s: State, t: State, step: Step)
    requires Bijection(s) && !step.Kill? && !step.Accept? && step.h in s.handlers && t.handlers.Keys == s.handlers.Keys
    requires forall g | g in s.handlers && g != step.h ::
               t.handlers[g].place == s.handlers[g].place && t.handlers[g].name == s.handlers[g].name
    requires t.handlers[step.h].name == s.handlers[step.h].name || step.ReceiveName?
    requires t.connections == (if step.Register? && s.handlers[step.h].name !in s.connections
                               then s.connections[s.handlers[step.h].name := step.h]
                               else if step.Erase? then s.connections - {s.handlers[step.h].name} else s.connections)
    requires Registered(t.handlers[step.h].place) <==>
               if step.Register? then s.handlers[step.h].name !in s.connections
               else !step.Erase? && Registered(s.handlers[step.h].place)
    requires step.ReceiveName? || step.Register? ==> !Registered(s.handlers[step.h].place)
    requires step.Erase? ==> Registered(s.handlers[step.h].place)
    ensures Bijection(t)
  {
    hide Registered;
  }

  lemma UserIdsOwnMove(s: State, t: State, h: nat)
    requires UserIds(s) && h in s.handlers && t.handlers.Keys == s.handlers.Keys
    requires forall g | g in s.handlers && g != h ::
               t.handlers[g].place == s.handlers[g].place && t.handlers[g].userId == s.handlers[g].userId
    requires if t.handlers[h].place.Registering? then t.handlers[h].userId == s.nextUser == t.nextUser - 1
             else t.handlers[h].userId == s.handlers[h].userId && t.nextUser == s.nextUser
    requires Registered(t.handlers[h].place) ==> Registered(s.handlers[h].place) || s.handlers[h].place.Registering?
    ensures UserIds(t)
  {
    hide Registered;
  }

  lemma {:induction false} OwnedAlways(s: State, steps: seq<Step>)
    requires Owned(s) && Run(s, steps)
    ensures Owned(After(s, steps))
    decreases |steps|
  {
    if steps != [] {
      OwnedKept(s, steps[0]);
      OwnedAlways(Next(s, steps[0]), steps[1..]);
    }
  }

  /** In every reachable state: one registered handler for each name and user id, and no entry for an ended handler. */
  lemma RegistryTheorem(steps: seq<Step>)
    requires Run(INIT, steps)
    ensures var s := After(INIT, steps);
            && (forall h, g | h in s.handlers && g in s.handlers && Registered(s.handlers[h].place)
                              && Registered(s.handlers[g].place)
                              && (s.handlers[h].name == s.handlers[g].name || s.handlers[h].userId == s.handlers[g].userId)
                :: h == g)
            && (forall name | name in s.connections ::
                  s.connections[name] in s.handlers && s.handlers[s.connections[name]].place != Ended)
            && (forall h | h in s.handlers ::
                  Registered(s.handlers[h].place) <==> exists name :: name in s.connections && s.connections[name] == h)
  {
    OwnedAlways(INIT, steps);
    var s := After(INIT, steps);
    forall h | h in s.handlers
      ensures Registered(s.handlers[h].place) ==> exists name :: name in s.connections && s.connections[name] == h
    {
      if Registered(s.handlers[h].place) {
        assert s.handlers[h].name in s.connections;
      }
    }
  }

  // ---------------------------------------------------------------- shutdown

  predicate Own(step: Step, h: nat) {
    !step.Kill? && !step.Accept? && step.h == h
  }

  /** How many steps a handler has left, at most, once the server has been told to exit. */
  function Rank(p: Place): nat {
    match p
    case Ended => 0
    case Erasing => 1
    case Removing => 2
    case LoopTop => 3
    case WaitKill(_, _) => 3
    case Disconnecting(_) => 4
    case Inactivity => 5
    case Working => 6
    case WaitStatus(_, _) => 6
    case Registering => 7
    case Rejoining => 7
    case CheckActive => 8
    case Named => 9
    case AwaitName => 10
  }

  lemma RankDrops(s: State, step: Step, h: nat)
    requires h in s.handlers && s.killed && Enabled(s, step)
    ensures h in Next(s, step).handlers && Next(s, step).killed
    ensures Own(step, h) ==> Rank(Next(s, step).handlers[h].place) < Rank(s.handlers[h].place)
    ensures !Own(step, h) ==> Next(s, step).handlers[h].place == s.handlers[h].place
  {
  }

  function OwnSteps(steps: seq<Step>, h: nat): nat {
    if steps == [] then 0 else (if Own(steps[0], h) then 1 else 0) + OwnSteps(steps[1..], h)
  }

  /** After the kill flag is set a handler takes at most ten more steps, and it is not stuck before it has ended. */
  lemma {:induction false} ShutdownBound(s: State, steps: seq<Step>, h: nat)
    requires h in s.handlers && s.killed && Run(s, steps)
    ensures var t := After(s, steps);
            h in t.handlers && OwnSteps(steps, h) + Rank(t.handlers[h].place) <= Rank(s.handlers[h].place) <= 10
    decreases |steps|
  {
    if steps != [] {
      RankDrops(s, steps[0], h);
      ShutdownBound(Next(s, steps[0]), steps[1..], h);
    }
  }

  lemma NotStuck(s: State, h: nat) returns (step: Step)
    requires h in s.handlers && s.handlers[h].place != Ended
    ensures Enabled(s, step) && Own(step, h)
  {
    match s.handlers[h].place
    case AwaitName => step := NameLost(h);
    case Named => step := CheckName(h);
    case CheckActive => step := CheckUser(h);
    case Rejoining => step := Rejoin(h);
    case Registering => step := Register(h);
    case LoopTop => step := Poll(h);
    case Working => step := Work(h, false);
    case Inactivity => step := CheckInactivity(h, false);
    case Disconnecting(_) => step := BeginWait(h);
    case WaitKill(_, _) => step := Tick(h);
    case WaitStatus(_, _) => step := CheckStatus(h);
    case Removing => step := Unplug(h);
    case Erasing => step := Erase(h);
  }

  /** The server's exit loop waits for an empty map; it is empty once every handler has ended. */
  lemma EndedLeavesEmpty(s: State)
    requires Owned(s) && forall h | h in s.handlers :: s.handlers[h].place == Ended
    ensures s.connections == map[]
  {
  }

  // ---------------------------------------------------------------- the reconnect wait

  predicate Waits(p: Place) {
    p.WaitKill? || p.WaitStatus?
  }

  /** The ticks that a waiting handler can still take. */
  function TicksLeft(p: Place): int {
    match p
    case WaitKill(tick, _) => RECONNECT_TIME - tick
    case WaitStatus(tick, _) => RECONNECT_TIME - tick - 1
    case _ => 0
  }

  function Ticks(steps: seq<Step>, h: nat): nat {
    if steps == [] then 0 else (if steps[0] == Tick(h) then 1 else 0) + Ticks(steps[1..], h)
  }

  ghost predicate WaitsAlong(s: State, steps: seq<Step>, h: nat)
    requires Run(s, steps)
    decreases |steps|
  {
    h in s.handlers && Waits(s.handlers[h].place)
    && (steps == [] || WaitsAlong(Next(s, steps[0]), steps[1..], h))
  }

  lemma TicksCounted(s: State, step: Step, h: nat)
    requires h in s.handlers && Waits(s.handlers[h].place) && Enabled(s, step)
    requires h in Next(s, step).handlers && Waits(Next(s, step).handlers[h].place)
    ensures TicksLeft(Next(s, step).handlers[h].place)
         == TicksLeft(s.handlers[h].place) - (if step == Tick(h) then 1 else 0)
    ensures TicksLeft(s.handlers[h].place) <= RECONNECT_TIME
    ensures Next(s, step).handlers[h].place.late == s.handlers[h].place.late
  {
    if !Own(step, h) {
      OthersStay(s, step, h);
    }
  }

  /** However the other threads run, one wait for a reconnect takes at most 60 ticks. */
  lemma {:induction false} WaitBound(s: State, steps: seq<Step>, h: nat)
    requires Owned(s) && Run(s, steps) && WaitsAlong(s, steps, h)
    ensures var t := After(s, steps);
            h in t.handlers && Ticks(steps, h) == TicksLeft(s.handlers[h].place) - TicksLeft(t.handlers[h].place)
    ensures Waits(After(s, steps).handlers[h].place) && 0 <= TicksLeft(After(s, steps).handlers[h].place)
    ensures Ticks(steps, h) <= 60 && After(s, steps).handlers[h].place.late == s.handlers[h].place.late
    decreases |steps|
  {
    if steps == [] {
      assert s.handlers[h].place.tick < RECONNECT_TIME;
    } else {
      TicksCounted(s, steps[0], h);
      hide Next, Enabled, Waits, Owned, TicksLeft;
      OwnedKept(s, steps[0]);
      WaitBound(Next(s, steps[0]), steps[1..], h);
    }
  }
}

/**
 The replication protocol as a state machine over its critical sections.

 A handler executes a command under the board's mutex and broadcasts it later under the mutex of the connection
 map. In between, the command is pending: the server's board has it and no client has been sent it. Other handlers
 execute and broadcast in the meantime, so the two orders may differ.
 */
module Protocol {
  import opened Packages
  import opened Boards
  import opened Commands
  import opened Reordering

  /** An executed command: whose it was, its place in the execute log, and the broadcasts that came before it. */
  datatype Event = Event(user: int, pkg: Package, num: nat, seen: nat)

  /** The thread that serves one user. `received` remembers every package that ever entered `buffer`. */
  datatype Handler = Handler(received: seq<Package>, buffer: seq<Package>)

  /**
   A connected client: frames in its socket, frames in its message queue, and the board it has built from the
   packages applied so far. `joined` is the length of the broadcast log when it connected.
   */
  datatype Replica = Replica(
    joined: nat, snapshot: seq<DrawData>,
    applied: seq<Package>, queue: seq<Package>, channel: seq<Package>, list: Board)

  /** `issued` says to whose insert each draw id was given. */
  datatype State = State(
    board: Board, nextId: int, nextUser: int, issued: map<int, int>,
    handlers: map<int, Handler>, replicas: map<int, Replica>,
    pending: seq<Event>, executed: seq<Event>, broadcast: seq<Event>)

  const INIT := State(map[], 0, 0, map[], map[], map[], [], [], [])

  datatype Step =
    | Connect
    | Receive(user: int, pkg: Package)
    | LockTimeout(user: int)
    | Execute(user: int)
    | Broadcast(at: nat)
    | Disconnect(user: int)
    | Reconnect(user: int)
    | Exit(user: int)
    | Enqueue(user: int)
    | Consume(user: int)

  function PackagesOf(log: seq<Event>): (ps: seq<Package>)
    ensures |ps| == |log|
    ensures forall i | 0 <= i < |log| :: ps[i] == log[i].pkg
  {
    if log == [] then [] else PackagesOf(log[..|log| - 1]) + [log[|log| - 1].pkg]
  }

  /** The handler is between two rounds of its loop, not between execute and broadcast. */
  ghost predicate Idle(s: State, user: int) {
    forall i | 0 <= i < |s.pending| :: s.pending[i].user != user
  }

  ghost predicate Enabled(s: State, step: Step) {
    match step
    case Connect => true
    case Receive(u, _) => u in s.handlers && Idle(s, u)
    case LockTimeout(u) => u in s.handlers && Idle(s, u) && s.handlers[u].buffer != []
    case Execute(u) => u in s.handlers && Idle(s, u) && s.handlers[u].buffer != []
    case Broadcast(at) => at < |s.pending|
    case Disconnect(u) => u in s.handlers && u in s.replicas && Idle(s, u)
    case Reconnect(u) => u in s.handlers && u !in s.replicas && Idle(s, u)
    case Exit(u) => u in s.handlers && Idle(s, u)
    case Enqueue(u) => u in s.replicas && s.replicas[u].channel != []
    case Consume(u) => u in s.replicas && s.replicas[u].queue != []
  }

  /** An insert gets the next draw id when it is received; nothing else is changed on the way in. */
  function Stamp(p: Package, id: int): Package {
    if p.Insert? then Insert(p.data.(drawId := id)) else p
  }

  /** A client connects with an empty board, and the first package in its socket is the server's board. */
  function NewReplica(s: State): Replica {
    var snapshot := Serialized(s.board);
    Replica(|s.broadcast|, snapshot, [], [], [Bulk(snapshot)], map[])
  }

  function Received(s: State, u: int, p: Package): State
    requires u in s.handlers
  {
    if p.Invalid? then s
    else
      var h, q := s.handlers[u], Stamp(p, s.nextId);
      var s' := s.(handlers := s.handlers[u := Handler(h.received + [q], h.buffer + [q])]);
      if p.Insert? then s'.(nextId := s.nextId + 1, issued := s.issued[s.nextId := u]) else s'
  }

  function Executed(s: State, u: int): State
    requires u in s.handlers && s.handlers[u].buffer != []
  {
    var h := s.handlers[u];
    var e := Event(u, h.buffer[0], |s.executed|, |s.broadcast|);
    s.(board := ServerApply(e.pkg, s.board),
       handlers := s.handlers[u := h.(buffer := h.buffer[1..])],
       pending := s.pending + [e],
       executed := s.executed + [e])
  }

  /** One critical section sends the package to every connection. */
  function Sent(s: State, at: nat): State
    requires at < |s.pending|
  {
    var e := s.pending[at];
    s.(pending := Without(s.pending, at),
       broadcast := s.broadcast + [e],
       replicas := map u | u in s.replicas :: s.replicas[u].(channel := s.replicas[u].channel + [e.pkg]))
  }

  function Next(s: State, step: Step): State
    requires Enabled(s, step)
  {
    match step
    case Connect =>
      s.(nextUser := s.nextUser + 1,
         handlers := s.handlers[s.nextUser := Handler([], [])],
         replicas := s.replicas[s.nextUser := NewReplica(s)])
    case Receive(u, p) => Received(s, u, p)
    case LockTimeout(_) => s
    case Execute(u) => Executed(s, u)
    case Broadcast(at) => Sent(s, at)
    case Disconnect(u) => s.(replicas := s.replicas - {u})
    case Reconnect(u) => s.(replicas := s.replicas[u := NewReplica(s)])
    case Exit(u) => s.(handlers := s.handlers - {u}, replicas := s.replicas - {u})
    case Enqueue(u) =>
      var r := s.replicas[u];
      s.(replicas := s.replicas[u := r.(queue := r.queue + [r.channel[0]], channel := r.channel[1..])])
    case Consume(u) =>
      var r := s.replicas[u];
      var p := r.queue[0];
      s.(replicas := s.replicas[u :=
        r.(applied := r.applied + [p], queue := r.queue[1..], list := Apply(p, r.list))])
  }

  /** Every interleaving: a sequence of steps, each enabled when it is taken. */
  ghost predicate Run(s: State, steps: seq<Step>)
    decreases |steps|
  {
    steps == [] || (Enabled(s, steps[0]) && Run(Next(s, steps[0]), steps[1..]))
  }

  ghost function After(s: State, steps: seq<Step>): State
    requires Run(s, steps)
    decreases |steps|
  {
    if steps == [] then s else After(Next(s, steps[0]), steps[1..])
  }

  /** Everything executed has been sent, and everything sent has been applied. */
  ghost predicate Quiescent(s: State) {
    s.pending == [] && forall u | u in s.replicas :: Drained(s.replicas[u])
  }

  predicate Drained(r: Replica) {
    r.queue == [] && r.channel == []
  }
}

/** The server's shared state and the critical sections of its handlers; each one is a step of `Protocol`. */
module Servers {
  import opened Packages
  import opened OrderedKeys
  import opened Boards
  import opened DrawLists
  import opened Commands
  import opened Protocol
  import opened Invariants

  class Server {
    const drawList: DrawList
    var glbDrawId: int
    var userIdRec: int
    var messagesBuf: map<int, seq<Package>>
    /** The package that a handler has executed and not yet broadcast. */
    var inFlight: map<int, Package>
    /** The frames sent to each connected client and not yet read by it. */
    var sockets: map<int, seq<Package>>
    ghost var model: State

    ghost predicate Valid()
      reads this, drawList
    {
      && drawList.dataMap == model.board && glbDrawId == model.nextId && userIdRec == model.nextUser
      && Matches(messagesBuf, inFlight, sockets, model)
      && OneSlotEach(model.pending) && UsersKnown(model)
    }

    static ghost predicate Matches(buffers: map<int, seq<Package>>, inFlight: map<int, Package>,
                                   sockets: map<int, seq<Package>>, s: State)
    {
      && buffers.Keys == s.handlers.Keys
      && (forall u | u in buffers :: buffers[u] == s.handlers[u].buffer)
      && (forall u | u in inFlight :: !Idle(s, u))
      && (forall i | 0 <= i < |s.pending| ::
            s.pending[i].user in inFlight && inFlight[s.pending[i].user] == s.pending[i].pkg)
      && sockets.Keys == s.replicas.Keys
      && (forall u | u in sockets :: sockets[u] == s.replicas[u].channel)
    }

    constructor ()
      ensures Valid() && fresh(drawList) && model == INIT
    {
      drawList := new DrawList();
      glbDrawId, userIdRec := 0, 0;
      messagesBuf, inFlight, sockets := map[], map[], map[];
      model := INIT;
    }

    /** A new user: an id, a handler, and the snapshot as the first frame. */
    method Welcome() returns (user: int)
      requires Valid()
      modifies this
      ensures Valid() && user == old(userIdRec)
      ensures model == Next(old(model), Connect)
      ensures user !in old(messagesBuf) && messagesBuf == old(messagesBuf)[user := []]
      ensures sockets == old(sockets)[user := [Bulk(Serialized(drawList.dataMap))]]
    {
      hide Serialized, UsersKnown, OneSlotEach;
      FreshUser(model);
      user := userIdRec;
      userIdRec := userIdRec + 1;
      var bulk := drawList.Serialize();
      messagesBuf := messagesBuf[user := []];
      sockets := sockets[user := [Bulk(bulk)]];
      ghost var was := model;
      UsersKnownKept(was, Connect);
      model := Next(model, Connect);
      assert forall u | u in inFlight :: Idle(model, u) == Idle(was, u);
    }

    static lemma FreshUser(s: State)
      requires UsersKnown(s)
      ensures s.nextUser !in s.handlers
    {
    }

    /** A message from the client: an insert is given its draw id, and anything but an invalid package is buffered. */
    method ReceivePackage(user: int, message: Package)
      requires Valid() && Enabled(model, Receive(user, message))
      modifies this
      ensures Valid() && model == Next(old(model), Receive(user, message))
      ensures sockets == old(sockets) && inFlight == old(inFlight) && unchanged(drawList)
    {
      var package := message;
      ghost var was := model;
      if package.Insert? {
        package := Insert(package.data.(drawId := glbDrawId));
        glbDrawId := glbDrawId + 1;
      }
      if !package.Invalid? {
        messagesBuf := messagesBuf[user := messagesBuf[user] + [package]];
      }
      model := Next(model, Receive(user, message));
      assert forall u | u in inFlight :: Idle(model, u) == Idle(was, u);
    }

    /** The switch over the message type; a type that it does not list leaves the board alone. */
    method ApplyToList(package: Package)
      modifies drawList
      ensures drawList.dataMap == ServerApply(package, old(drawList.dataMap))
    {
      match package
      case Insert(data) => drawList.Insert(data);
      case Edit(id, data) => drawList.Edit(id, data);
      case Remove(id) => drawList.Erase(id);
      case Clear(user) => drawList.Clear(user);
      case Undo(user) => drawList.Undo(user);
      case _ =>
    }

    /** The first critical section of `execute_and_broadcast`; without the lock it returns and changes nothing. */
    method ExecutePackage(user: int, locked: bool) returns (package: Package)
      requires Valid() && Enabled(model, Execute(user))
      modifies this, drawList
      ensures Valid() && model == Next(old(model), if locked then Execute(user) else LockTimeout(user))
      ensures locked ==> package == old(messagesBuf[user][0]) && inFlight == old(inFlight)[user := package]
      ensures !locked ==> unchanged(drawList) && messagesBuf == old(messagesBuf) && inFlight == old(inFlight)
    {
      hide ServerApply, Apply, OneSlotEach, UsersKnown;
      package := Invalid;
      if !locked {
        return;
      }
      ghost var was := model;
      MatchesExecuted(messagesBuf, inFlight, sockets, model, user);
      package := messagesBuf[user][0];
      messagesBuf := messagesBuf[user := messagesBuf[user][1..]];
      ApplyToList(package);
      inFlight := inFlight[user := package];
      model := Next(was, Execute(user));
      UsersKnownKept(was, Execute(user));
    }

    static lemma MatchesExecuted(buffers: map<int, seq<Package>>, inFlight: map<int, Package>,
                                 sockets: map<int, seq<Package>>, s: State, user: int)
      requires Matches(buffers, inFlight, sockets, s) && Enabled(s, Execute(user)) && OneSlotEach(s.pending)
      ensures Matches(buffers[user := buffers[user][1..]], inFlight[user := buffers[user][0]], sockets, Executed(s, user))
      ensures OneSlotEach(Executed(s, user).pending)
    {
      var t := Executed(s, user);
      assert forall i | 0 <= i < |s.pending| :: t.pending[i] == s.pending[i] && t.pending[i].user != user;
      assert t.pending[|s.pending|].user == user;
      forall v | v in inFlight || v == user
        ensures !Idle(t, v)
      {
        if v != user {
          var i :| 0 <= i < |s.pending| && s.pending[i].user == v;
          assert t.pending[i].user == v;
        }
      }
    }

    /** The second critical section: the package goes to every connection, one after the other. */
    method BroadcastPackage(user: int)
      requires Valid() && user in inFlight
      modifies this
      ensures Valid()
      ensures exists at: nat | at < |old(model).pending| ::
                old(model).pending[at].user == user && model == Next(old(model), Broadcast(at))
      ensures sockets.Keys == old(sockets).Keys && inFlight == old(inFlight) - {user}
      ensures forall u | u in sockets :: sockets[u] == old(sockets)[u] + [old(inFlight)[user]]
    {
      ghost var was := model;
      ghost var at: nat :| at < |was.pending| && was.pending[at].user == user;
      var package := inFlight[user];
      var before := sockets;
      var left := before.Keys;
      while left != {}
        invariant left <= before.Keys == sockets.Keys
        invariant forall u | u in before :: sockets[u] == if u in left then before[u] else before[u] + [package]
        invariant model == was && messagesBuf == old(messagesBuf) && inFlight == old(inFlight)
        invariant glbDrawId == old(glbDrawId) && userIdRec == old(userIdRec)
        decreases left
      {
        var u := Least(left);
        sockets := sockets[u := sockets[u] + [package]];
        left := left - {u};
      }
      inFlight := inFlight - {user};
      model := Next(was, Broadcast(at));
      InFlightRemoved(was, at);
    }

    static lemma InFlightRemoved(s: State, at: nat)
      requires at < |s.pending| && OneSlotEach(s.pending)
      ensures var t := Sent(s, at);
              && (forall v | v != s.pending[at].user && !Idle(s, v) :: !Idle(t, v))
              && (forall i | 0 <= i < |t.pending| :: t.pending[i].user != s.pending[at].user
                                                     && t.pending[i] in s.pending)
              && OneSlotEach(t.pending)
    {
      var t := Sent(s, at);
      assert forall i | 0 <= i < |t.pending| :: t.pending[i] == s.pending[if i < at then i else i + 1];
      forall v | v != s.pending[at].user && !Idle(s, v)
        ensures !Idle(t, v)
      {
        var i :| 0 <= i < |s.pending| && s.pending[i].user == v;
        assert t.pending[if i < at then i else i - 1] == s.pending[i];
      }
    }

    /** The client is gone: its socket is closed, and its handler keeps the buffer. */
    method DropSocket(user: int)
      requires Valid() && Enabled(model, Disconnect(user))
      modifies this
      ensures Valid() && model == Next(old(model), Disconnect(user))
      ensures sockets == old(sockets) - {user} && messagesBuf == old(messagesBuf)
    {
      ghost var was := model;
      sockets := sockets - {user};
      model := Next(model, Disconnect(user));
      assert forall u | u in inFlight :: Idle(model, u) == Idle(was, u);
    }

    /** The client is back: a new socket, and the board as the first frame. */
    method WelcomeBack(user: int)
      requires Valid() && Enabled(model, Reconnect(user))
      modifies this
      ensures Valid() && model == Next(old(model), Reconnect(user)) && messagesBuf == old(messagesBuf)
      ensures sockets == old(sockets)[user := [Bulk(Serialized(drawList.dataMap))]]
    {
      ghost var was := model;
      var bulk := drawList.Serialize();
      sockets := sockets[user := [Bulk(bulk)]];
      model := Next(model, Reconnect(user));
      assert forall u | u in inFlight :: Idle(model, u) == Idle(was, u);
    }

    /** The handler ends, and its buffer with it. */
    method EndHandler(user: int)
      requires Valid() && Enabled(model, Exit(user))
      modifies this
      ensures Valid() && model == Next(old(model), Exit(user))
      ensures sockets == old(sockets) - {user} && messagesBuf == old(messagesBuf) - {user}
    {
      ghost var was := model;
      messagesBuf := messagesBuf - {user};
      sockets := sockets - {user};
      model := Next(model, Exit(user));
      assert forall u | u in inFlight :: Idle(model, u) == Idle(was, u);
    }
  }
}

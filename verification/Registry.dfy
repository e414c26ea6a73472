/** The server's connection map: user names to records that live in the handler threads. */
module Registry {
  import opened Packages

  const RECONNECT_TIME := 60

  datatype Status = On | Off | Success | Failure | Missing

  class Connection {
    var socket: int
    /** Whether the descriptor in `socket` is open. */
    var isOpen: bool
    var userId: int
    var isActive: bool
    var killFlag: bool
    var username: string

    constructor (socket: int, userId: int, username: string)
      ensures this.socket == socket && this.userId == userId && this.username == username
      ensures isOpen && isActive && !killFlag
    {
      this.socket, this.userId, this.username := socket, userId, username;
      isOpen, isActive, killFlag := true, true, false;
    }
  }

  class ConnectionMap {
    var connections: map<string, Connection>
    var serverKillFlag: bool

    /** Each record is filed under its own user name; so no record is filed twice. */
    ghost predicate Valid()
      reads this, connections.Values
    {
      forall name | name in connections :: connections[name].username == name
    }

    /** The record under a name, if there is one. */
    function Under(username: string): set<Connection>
      reads this
    {
      if username in connections then {connections[username]} else {}
    }

    constructor ()
      ensures Valid() && connections == map[] && !serverKillFlag
    {
      connections, serverKillFlag := map[], false;
    }

    method CheckKillFlag(username: string) returns (r: Status)
      ensures username !in connections ==> r == Missing
      ensures username in connections ==> r == if serverKillFlag || connections[username].killFlag then On else Off
    {
      if username !in connections {
        return Missing;
      } else if serverKillFlag || connections[username].killFlag {
        return On;
      } else {
        return Off;
      }
    }

    method DisconnectUser(username: string) returns (r: Status)
      requires Valid()
      modifies Under(username)`isActive, Under(username)`isOpen
      ensures Valid()
      ensures r == if username in connections then Success else Missing
      ensures username in connections ==> !connections[username].isActive && !connections[username].isOpen
    {
      if username !in connections {
        return Missing;
      }
      connections[username].isActive := false;
      connections[username].isOpen := false;
      return Success;
    }

    /** The second critical section of `remove_user`. */
    method EraseEntry(username: string) returns (r: Status)
      requires Valid()
      modifies this`connections
      ensures Valid() && connections == old(connections) - {username}
      ensures r == if username in old(connections) then Success else Missing
    {
      if username !in connections {
        return Missing;
      }
      connections := connections - {username};
      return Success;
    }

    /** Two critical sections: the record is made inactive, and then taken out of the map. */
    method RemoveUser(username: string) returns (r: Status)
      requires Valid()
      modifies this`connections, Under(username)`isActive, Under(username)`isOpen
      ensures Valid() && connections == old(connections) - {username}
      ensures r == if username in old(connections) then Success else Missing
      ensures username in old(connections) ==>
                !old(connections)[username].isActive && !old(connections)[username].isOpen
    {
      var disconnected := DisconnectUser(username);
      r := EraseEntry(username);
    }

    /** `greeting` is the socket that the user's id is sent on, and the id: it still is the old socket. */
    method ReConnectUser(username: string, newSocket: int) returns (r: Status, greeting: Option<(int, int)>)
      requires Valid()
      modifies Under(username)`isActive, Under(username)`isOpen, Under(username)`socket
      ensures Valid()
      ensures r == if username in connections then Success else Missing
      ensures username !in connections ==> greeting == None
      ensures username in connections ==>
                var c := connections[username];
                c.isActive && c.isOpen && c.socket == newSocket && greeting == Some((old(c.socket), c.userId))
    {
      if username !in connections {
        return Missing, None;
      }
      greeting := Some((connections[username].socket, connections[username].userId));
      connections[username].isActive := true;
      connections[username].socket, connections[username].isOpen := newSocket, true;
      return Success, greeting;
    }

    /** Files a record under its user name, unless that name is taken. */
    method CreateNewUser(connection: Connection) returns (r: Status)
      requires Valid()
      modifies this`connections
      ensures Valid()
      ensures connection.username in old(connections) ==> r == Missing && connections == old(connections)
      ensures connection.username !in old(connections) ==>
                r == Success && connections == old(connections)[connection.username := connection]
    {
      if connection.username in connections {
        return Missing;
      }
      connections := connections[connection.username := connection];
      return Success;
    }

    method IsUserActive(username: string) returns (r: bool)
      ensures r == (username in connections && connections[username].isActive)
    {
      if username !in connections || !connections[username].isActive {
        return false;
      }
      return true;
    }
  }

  /** The first tick at which the handler stops waiting. */
  predicate StopsAt(kill: seq<bool>, active: seq<bool>, i: int)
    requires |kill| == |active|
  {
    0 <= i < |kill| && (kill[i] || active[i]) && forall j | 0 <= j < i :: !kill[j] && !active[j]
  }

  /**
   The wait in `handle_reconnect`: once a second it looks at the kill flags and then at its own record. It succeeds
   if and only if the user is back at some tick and no kill flag is seen up to then.
   */
  method AwaitReconnect(kill: seq<bool>, active: seq<bool>) returns (r: Status, ticks: nat)
    requires |kill| == |active| == RECONNECT_TIME
    ensures ticks <= RECONNECT_TIME
    ensures r == Success <==> exists i :: StopsAt(kill, active, i) && !kill[i]
    ensures r == Missing <==> exists i :: StopsAt(kill, active, i) && kill[i]
    ensures r == Failure <==> forall i :: !StopsAt(kill, active, i)
    ensures r != Failure ==> StopsAt(kill, active, ticks - 1)
    ensures r == Failure ==> ticks == RECONNECT_TIME
  {
    ticks := 0;
    for i := 0 to RECONNECT_TIME
      invariant ticks == i && forall j | 0 <= j < i :: !kill[j] && !active[j]
    {
      ticks := ticks + 1;
      if kill[i] {
        assert StopsAt(kill, active, i);
        return Missing, ticks;
      }
      if active[i] {
        assert StopsAt(kill, active, i);
        return Success, ticks;
      }
    }
    return Failure, ticks;
  }
}

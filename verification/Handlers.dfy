/**
 The handler threads over the connection map: records are objects, the map holds references to them, and each
 method is one critical section of a handler and one step of `Lifecycle`.
 */
module Handlers {
  import opened Registry
  import opened Lifecycle

  class HandlerPool {
    const registry: ConnectionMap
    /** The record on each handler's own stack, and the name that its client has sent. */
    var records: map<nat, Connection>
    var names: map<nat, string>
    var userIdRec: int
    ghost var model: State

    ghost predicate Valid()
      reads this, registry, records.Values
    {
      && Owned(model)
      && registry.serverKillFlag == model.killed && userIdRec == model.nextUser
      && records.Keys == names.Keys == model.handlers.Keys
      && Distinct(records) && SameMap(registry.connections, records, model.connections)
      && forall h | h in records :: names[h] == model.handlers[h].name && Mirrors(records[h], model.handlers[h])
    }

    /** No two threads share a record. */
    static ghost predicate Distinct(records: map<nat, Connection>) {
      forall h, g | h in records && g in records && h != g :: records[h] != records[g]
    }

    /** The map leads to the record of the handler that the model has under the name. */
    static ghost predicate SameMap(
      connections: map<string, Connection>, records: map<nat, Connection>, owners: map<string, nat>)
    {
      && connections.Keys == owners.Keys
      && forall name | name in connections :: owners[name] in records && connections[name] == records[owners[name]]
    }

    static predicate HasRecord(p: Place) {
      p.Registering? || Registered(p)
    }

    /** From the moment it goes to register, the record has the handler's name, id and activity. */
    static ghost predicate Mirrors(c: Connection, h: Handler)
      reads c
    {
      HasRecord(h.place) ==>
        c.username == h.name && c.userId == h.userId && c.isActive == h.isActive && !c.killFlag
    }

    /** Every record in the map is filed under its own name. */
    lemma Filed()
      requires Valid()
      ensures registry.Valid()
    {
      hide Registered;
      forall name | name in registry.connections ensures registry.connections[name].username == name {
        Entry(name);
      }
    }

    /** The map and the model have the same names; an entry leads to the record of a registered handler. */
    lemma Entry(name: string)
      requires Valid()
      ensures name in registry.connections <==> name in model.connections
      ensures name in registry.connections ==>
                var owner := model.connections[name];
                && owner in records && registry.connections[name] == records[owner]
                && registry.connections[name].username == name == model.handlers[owner].name
                && Registered(model.handlers[owner].place)
                && registry.connections[name].isActive == model.handlers[owner].isActive
      ensures RecordActive(model, name) <==> name in registry.connections && registry.connections[name].isActive
    {
      hide Registered;
    }

    /** A handler that goes to register has its name in its record, and the record is not in the map. */
    lemma Unfiled(h: nat)
      requires Valid() && At(model, h, Registering)
      ensures records[h].username == names[h]
      ensures forall name | name in registry.connections :: registry.connections[name] != records[h]
    {
      assert !Registered(model.handlers[h].place);
      hide Registered;
      forall name | name in registry.connections ensures registry.connections[name] != records[h] {
        Entry(name);
      }
    }

    static lemma NewHandler(s: State, h: nat)
      requires Owned(s) && Enabled(s, Accept(h))
      ensures Owned(Next(s, Accept(h))) && h !in s.handlers && !HasRecord(AwaitName)
      ensures Next(s, Accept(h)) == s.(handlers := s.handlers[h := Handler(AwaitName, "", -1, false)])
    {
      OwnedKept(s, Accept(h));
    }

    static lemma NewName(s: State, h: nat, name: string)
      requires Owned(s) && Enabled(s, ReceiveName(h, name))
      ensures Owned(Next(s, ReceiveName(h, name))) && h in s.handlers && !HasRecord(Named)
      ensures Next(s, ReceiveName(h, name))
           == s.(handlers := s.handlers[h := s.handlers[h].(place := Named, name := name)])
    {
      OwnedKept(s, ReceiveName(h, name));
    }

    /** A new thread brings a record that no other thread has. */
    static lemma AddRecord(connections: map<string, Connection>, records: map<nat, Connection>,
                           owners: map<string, nat>, h: nat, record: Connection)
      requires Distinct(records) && SameMap(connections, records, owners)
      requires h !in records && record !in records.Values
      ensures Distinct(records[h := record]) && SameMap(connections, records[h := record], owners)
    {
    }

    /** A registered handler's own record is the one in the map under its name. */
    lemma OwnEntry(h: nat)
      requires Valid() && h in records && Registered(model.handlers[h].place)
      ensures names[h] in registry.connections && registry.connections[names[h]] == records[h]
      ensures names[h] in model.connections && model.connections[names[h]] == h
    {
      hide Registered;
    }

    constructor ()
      ensures Valid() && fresh(registry) && model == INIT
    {
      registry := new ConnectionMap();
      records, names, userIdRec, model := map[], map[], 0, INIT;
    }

    /** The steps of a registered handler. */
    static ghost predicate OfRegistered(step: Step) {
      || step.Poll? || step.Work? || step.CheckInactivity? || step.BeginWait? || step.Tick? || step.CheckStatus?
      || step.Unplug? || step.Erase?
    }

    static lemma PlaceOf(s: State, step: Step)
      requires Enabled(s, step) && !step.Accept? && !step.Kill?
      ensures step.h in s.handlers && (OfRegistered(step) ==> Registered(s.handlers[step.h].place))
      ensures step.Register? ==> At(s, step.h, Registering)
    {
    }

    /** What a handler finds when it takes a step. */
    lemma Finds(step: Step)
      requires Valid() && Enabled(model, step) && !step.Accept? && !step.Kill?
      ensures registry.Valid() && Distinct(records)
      ensures registry.serverKillFlag == model.killed && userIdRec == model.nextUser
      ensures step.h in records && step.h in names && step.h in model.handlers
      ensures names[step.h] == model.handlers[step.h].name
      ensures names[step.h] in registry.connections <==> names[step.h] in model.connections
      ensures names[step.h] in registry.connections ==>
                var owner := model.connections[names[step.h]];
                owner in records && registry.connections[names[step.h]] == records[owner]
      ensures OfRegistered(step) ==> names[step.h] in registry.connections && model.connections[names[step.h]] == step.h
      ensures OfRegistered(step) ==>
                !records[step.h].killFlag && records[step.h].isActive == model.handlers[step.h].isActive
      ensures step.Register? ==> records[step.h].username == names[step.h]
      ensures step.Register? ==> records[step.h] !in registry.connections.Values
      ensures RecordActive(model, names[step.h])
         <==> names[step.h] in registry.connections && registry.connections[names[step.h]].isActive
    {
      hide Registered, Owned, Enabled;
      PlaceOf(model, step);
      Filed();
      Entry(names[step.h]);
      if OfRegistered(step) {
        OwnEntry(step.h);
      }
      if step.Register? {
        Unfiled(step.h);
      }
    }

    /** Whether a step writes the activity flag of handler `g`. */
    static ghost predicate Writes(s: State, step: Step, g: nat) {
      match step
      case CheckName(h) => h == g
      case CheckInactivity(h, timedOut) => timedOut && h == g
      case Rejoin(h) => Leads(s, h, g)
      case BeginWait(h) => Leads(s, h, g)
      case Unplug(h) => Leads(s, h, g)
      case _ => false
    }

    /** The map has the record of `g` under the name of `h`. */
    static ghost predicate Leads(s: State, h: nat, g: nat) {
      h in s.handlers && s.handlers[h].name in s.connections && s.connections[s.handlers[h].name] == g
    }

    /** Only a handler whose name is free gets a record ready. */
    static lemma RecordEffect(s: State, step: Step, g: nat)
      requires Enabled(s, step) && g in s.handlers && HasRecord(Next(s, step).handlers[g].place)
      ensures step != CheckName(g) ==> HasRecord(s.handlers[g].place)
      ensures step == CheckName(g) ==> s.handlers[g].name !in s.connections
    {
    }

    static lemma IdEffect(s: State, step: Step, g: nat)
      requires Enabled(s, step) && g in s.handlers && HasRecord(Next(s, step).handlers[g].place)
      ensures Next(s, step).handlers[g].userId == if step == CheckName(g) then s.nextUser else s.handlers[g].userId
    {
    }

    static lemma FlagEffect(s: State, step: Step, g: nat)
      requires Enabled(s, step) && g in s.handlers && HasRecord(Next(s, step).handlers[g].place)
      ensures Next(s, step).handlers[g].isActive
           == if Writes(s, step, g) then step.Rejoin? || step.CheckName? else s.handlers[g].isActive
    {
    }

    static lemma ModelEffect(s: State, step: Step)
      requires Enabled(s, step) && !step.Kill? && !step.Accept?
      ensures step.h in s.handlers && Next(s, step).handlers.Keys == s.handlers.Keys && Next(s, step).killed == s.killed
      ensures step.ReceiveName? || Next(s, step).handlers[step.h].name == s.handlers[step.h].name
      ensures forall g | g in s.handlers && g != step.h :: Next(s, step).handlers[g].name == s.handlers[g].name
      ensures Next(s, step).nextUser == s.nextUser
           + (if step.CheckName? && s.handlers[step.h].name !in s.connections then 1 else 0)
    {
    }

    /** The map after a step leads where the model does. */
    static lemma MapEffect(connections: map<string, Connection>, after: map<string, Connection>,
                           records: map<nat, Connection>, s: State, step: Step)
      requires Enabled(s, step) && !step.Kill? && !step.Accept? && step.h in s.handlers && step.h in records
      requires SameMap(connections, records, s.connections)
      requires var name := s.handlers[step.h].name;
               after == if step.Register? && name !in connections then connections[name := records[step.h]]
                        else if step.Erase? then connections - {name} else connections
      ensures SameMap(after, records, Next(s, step).connections)
    {
      hide Next, Enabled;
      OwnMove(s, step);
    }

    /** When the records and the map have changed as the step asks, the pool is valid again. */
    twostate lemma Done(step: Step)
      requires old(Valid()) && Enabled(old(model), step) && !step.Kill? && !step.Accept? && !step.ReceiveName?
      requires model == Next(old(model), step)
      requires records == old(records) && names == old(names) && registry.serverKillFlag == old(registry.serverKillFlag)
      requires userIdRec == old(userIdRec) +
        (if step.CheckName? && names[step.h] !in old(registry.connections) then 1 else 0)
      requires forall g | g in records && step == CheckName(g) && names[g] !in old(registry.connections) ::
                 records[g].username == names[g] && records[g].userId == old(userIdRec) && !records[g].killFlag
      requires forall g | g in records && step != CheckName(g) ::
                 records[g].username == old(records[g].username) && records[g].userId == old(records[g].userId)
                 && records[g].killFlag == old(records[g].killFlag)
      requires forall g | g in records && (step == CheckName(g) ==> names[g] !in old(registry.connections)) ::
                 records[g].isActive ==
                 if Writes(old(model), step, g) then step.Rejoin? || step.CheckName? else old(records[g].isActive)
      requires step.h in records && registry.connections ==
        if step.Register? && names[step.h] !in old(registry.connections)
        then old(registry.connections)[names[step.h] := records[step.h]]
        else if step.Erase? then old(registry.connections) - {names[step.h]} else old(registry.connections)
      ensures Valid()
    {
      hide Owned, Next, Enabled, HasRecord, Registered, Distinct, Waits;
      assert names.Keys == model.handlers.Keys && Owned(model) by {
        OwnedKept(old(model), step);
        ModelEffect(old(model), step);
      }
      assert old(registry.connections).Keys == old(model).connections.Keys;
      hide SameMap;
      MapEffect(old(registry.connections), registry.connections, records, old(model), step);
      ModelEffect(old(model), step);
      forall g | g in records && HasRecord(model.handlers[g].place)
        ensures Mirrors(records[g], model.handlers[g])
      {
        RecordEffect(old(model), step, g);
        IdEffect(old(model), step, g);
        FlagEffect(old(model), step, g);
      }
    }

    /** A connection is accepted: a thread with a record of its own. */
    method Spawn(h: nat, socket: int)
      requires Valid() && Enabled(model, Accept(h))
      modifies this`records, this`names, this`model
      ensures Valid() && model == Next(old(model), Accept(h))
    {
      hide Owned, Registered, HasRecord, Next, Distinct, SameMap;
      NewHandler(model, h);
      hide Enabled;
      var record := new Connection(socket, -1, "");
      AddRecord(registry.connections, records, model.connections, h, record);
      records, names := records[h := record], names[h := ""];
      model := Next(model, Accept(h));
    }

    method TakeName(h: nat, name: string)
      requires Valid() && Enabled(model, ReceiveName(h, name))
      modifies this`names, this`model
      ensures Valid() && model == Next(old(model), ReceiveName(h, name))
    {
      hide Owned, SameMap, Distinct, Registered, HasRecord, Next;
      NewName(model, h, name);
      hide Enabled;
      names := names[h := name];
      model := Next(model, ReceiveName(h, name));
    }

    /** A name that is not in the map: the record is filled in before it is filed. */
    method PrepareRecord(h: nat)
      requires Valid() && Enabled(model, CheckName(h))
      modifies this, records[h]
      ensures Valid() && model == Next(old(model), CheckName(h))
    {
      hide Valid, Owned, SameMap, Enabled, Next, Registered, HasRecord, RecordActive;
      Finds(CheckName(h));
      if names[h] !in registry.connections {
        records[h].userId := userIdRec;
        userIdRec := userIdRec + 1;
        records[h].username := names[h];
        records[h].killFlag := false;
        records[h].isActive := true;
      }
      model := Next(model, CheckName(h));
      Done(CheckName(h));
    }

    /** A name that is in the map: its user is reconnecting, unless it is active. */
    method LookAtUser(h: nat) returns (active: bool)
      requires Valid() && Enabled(model, CheckUser(h))
      modifies this`model
      ensures Valid() && model == Next(old(model), CheckUser(h))
      ensures active == RecordActive(old(model), names[h])
    {
      hide Valid, Owned, SameMap, Enabled, Next, Registered, HasRecord, RecordActive;
      Finds(CheckUser(h));
      active := registry.IsUserActive(names[h]);
      model := Next(model, CheckUser(h));
      Done(CheckUser(h));
    }

    /** The new thread revives the record of the waiting one, and ends. */
    method ReviveUser(h: nat, newSocket: int)
      requires Valid() && Enabled(model, Rejoin(h))
      modifies this`model, registry.connections.Values
      ensures Valid() && model == Next(old(model), Rejoin(h))
    {
      hide Valid, Owned, SameMap, Enabled, Next, Registered, HasRecord, RecordActive;
      Finds(Rejoin(h));
      var r, greeting := registry.ReConnectUser(names[h], newSocket);
      model := Next(model, Rejoin(h));
      Done(Rejoin(h));
    }

    method FileRecord(h: nat) returns (r: Status)
      requires Valid() && Enabled(model, Register(h))
      modifies this`model, registry
      ensures Valid() && model == Next(old(model), Register(h))
      ensures r == Success <==> names[h] in registry.connections && registry.connections[names[h]] == records[h]
    {
      hide Valid, Owned, SameMap, Enabled, Next, Registered, HasRecord, RecordActive;
      Finds(Register(h));
      r := registry.CreateNewUser(records[h]);
      model := Next(model, Register(h));
      Done(Register(h));
    }

    method PollFlags(h: nat) returns (r: Status)
      requires Valid() && Enabled(model, Poll(h))
      modifies this`model
      ensures Valid() && model == Next(old(model), Poll(h))
      ensures r == if old(model).killed then On else Off
    {
      hide Valid, Owned, SameMap, Enabled, Next, Registered, HasRecord, RecordActive;
      Finds(Poll(h));
      r := registry.CheckKillFlag(names[h]);
      model := Next(model, Poll(h));
      Done(Poll(h));
    }

    /** The same look once a tick, while the handler waits. */
    method PollWhileWaiting(h: nat) returns (r: Status)
      requires Valid() && Enabled(model, Tick(h))
      modifies this`model
      ensures Valid() && model == Next(old(model), Tick(h))
      ensures r == if old(model).killed then On else Off
    {
      hide Valid, Owned, SameMap, Enabled, Next, Registered, HasRecord, RecordActive;
      Finds(Tick(h));
      r := registry.CheckKillFlag(names[h]);
      model := Next(model, Tick(h));
      Done(Tick(h));
    }

    /** The steps that touch neither a record nor the map. */
    method Proceed(ghost step: Step)
      requires Valid() && Enabled(model, step)
      requires step.NameLost? || step.Work? || (step.CheckInactivity? && !step.timedOut)
      modifies this`model
      ensures Valid() && model == Next(old(model), step)
    {
      hide Valid, Owned, SameMap, Enabled, Next, Registered, HasRecord, RecordActive;
      Finds(step);
      model := Next(model, step);
      Done(step);
    }

    /** The server is told to exit. */
    method Exit()
      requires Valid()
      modifies this`model, registry`serverKillFlag
      ensures Valid() && model == Next(old(model), Kill)
    {
      OwnedKept(model, Kill);
      hide Owned, Distinct, SameMap, HasRecord;
      registry.serverKillFlag := true;
      model := Next(model, Kill);
    }

    /** The handler writes its own record, without the mutex. */
    method TimeOut(h: nat)
      requires Valid() && Enabled(model, CheckInactivity(h, true))
      modifies this`model, {records[h]}`isActive
      ensures Valid() && model == Next(old(model), CheckInactivity(h, true))
    {
      hide Valid, Owned, SameMap, Enabled, Next, Registered, HasRecord, RecordActive;
      Finds(CheckInactivity(h, true));
      records[h].isActive := false;
      model := Next(model, CheckInactivity(h, true));
      Done(CheckInactivity(h, true));
    }

    /** The start of `handle_reconnect`; the name is always found. */
    method StartWait(h: nat) returns (r: Status)
      requires Valid() && Enabled(model, BeginWait(h))
      modifies this`model, {records[h]}`isActive, {records[h]}`isOpen
      ensures Valid() && model == Next(old(model), BeginWait(h))
      ensures r == Success
    {
      hide Valid, Owned, SameMap, Enabled, Next, Registered, HasRecord, RecordActive;
      Finds(BeginWait(h));
      r := registry.DisconnectUser(names[h]);
      model := Next(model, BeginWait(h));
      Done(BeginWait(h));
    }

    /** The end of one tick: the handler looks at its own record, which another thread may have revived. */
    method LookAtOwnRecord(h: nat) returns (back: bool)
      requires Valid() && Enabled(model, CheckStatus(h))
      modifies this`model
      ensures Valid() && model == Next(old(model), CheckStatus(h))
      ensures back == old(model).handlers[h].isActive
    {
      hide Valid, Owned, SameMap, Enabled, Next, Registered, HasRecord, RecordActive;
      Finds(CheckStatus(h));
      back := records[h].isActive;
      model := Next(model, CheckStatus(h));
      Done(CheckStatus(h));
    }

    /** The first half of `remove_user`. */
    method DeactivateUser(h: nat)
      requires Valid() && Enabled(model, Unplug(h))
      modifies this`model, {records[h]}`isActive, {records[h]}`isOpen
      ensures Valid() && model == Next(old(model), Unplug(h))
    {
      hide Valid, Owned, SameMap, Enabled, Next, Registered, HasRecord, RecordActive;
      Finds(Unplug(h));
      var r := registry.DisconnectUser(names[h]);
      model := Next(model, Unplug(h));
      Done(Unplug(h));
    }

    /** The second half: the reference is gone from the map before the thread, and with it the record, ends. */
    method UnfileRecord(h: nat) returns (r: Status)
      requires Valid() && Enabled(model, Erase(h))
      modifies this`model, registry
      ensures Valid() && model == Next(old(model), Erase(h))
      ensures r == Success && records[h] !in registry.connections.Values
    {
      hide Valid, Owned, SameMap, Enabled, Next, Registered, HasRecord, RecordActive;
      Finds(Erase(h));
      r := registry.EraseEntry(names[h]);
      model := Next(model, Erase(h));
      Done(Erase(h));
    }

    /** The map leads to the records of the registered handlers and to no others: none whose thread has ended. */
    lemma EntriesAreLive(h: nat)
      requires Valid() && h in records
      ensures records[h] in registry.connections.Values <==> Registered(model.handlers[h].place)
      ensures records[h] in registry.connections.Values ==>
                names[h] in registry.connections && registry.connections[names[h]] == records[h]
      ensures model.handlers[h].place == Ended ==> records[h] !in registry.connections.Values
    {
      assert !Registered(Ended);
      hide Registered, Owned;
      if Registered(model.handlers[h].place) {
        OwnEntry(h);
      }
      forall name | name in registry.connections ensures Registered(model.handlers[model.connections[name]].place) {
        Entry(name);
      }
    }

    /** Two users in the map have two ids. */
    lemma UsersDistinct(a: string, b: string)
      requires Valid() && a in registry.connections && b in registry.connections
      ensures registry.connections[a].userId == registry.connections[b].userId <==> a == b
    {
      Entry(a);
      Entry(b);
    }
  }
}

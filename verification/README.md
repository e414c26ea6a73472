# Net-Scetch: a verified model

Net-Scetch is a whiteboard replicated by one server and many clients. Clients send commands; the server executes each
command on its own board and then broadcasts it; every client replays the broadcasts on its own board. This project
models that system in Dafny and proves when the boards end equal, together with the properties of the parts that the
argument rests on. `dafny verify dfyconfig.toml` checks everything.

## How the project is laid out

- `Packages`, `OrderedKeys`, `Board`, `DrawList`: the data, the order of a `std::map`, what each `DrawList` operation
  does to a board, and the class whose loops are proved against those functions.
- `Commands`, `SuffixReplay`, `Reordering`: packages as operations on boards, an exact table of which of them commute,
  which are idempotent, and what replaying a log in another order, or again, does.
- `Protocol`, `Invariants`, `Convergence`, `SingleOwner`, `Agreement`: the protocol as a state machine whose steps are
  the critical sections of the server and the clients, its invariants, and the convergence theorems.
- `Races`, `Joins`: exactly which commands diverge when two users send them at the same time, and exactly when a client
  that joins with commands in flight ends with the server's board.
- `Server`, `Client`: the imperative code of both sides. Each method of `Server` is a step of `Protocol`.
- `Delivery`: what clients send is what is executed and broadcast, and nothing is stuck.
- `Registry`, `Lifecycle`, `HandlerPaths`, `Handlers`: the connection map, the life of the handler threads as a state
  machine, where its steps lead from one meeting with the client to the next, and the threads with their records as
  objects, each method of which is one step of that machine.
- `Dfsa`, `Lexer`, `CommandText`, `Scanner`, `CommandLine`: the text path from a typed line to a package. `Scanner` is the
  language written down without an automaton.
- `Framing`: the byte path, messages over a stream.

## The main results

*One invariant for all convergence results.* A command is *pending* between its execution on the server and its
broadcast. `Convergence.InSync` says of a set of users that replaying the pending commands on what their clients will
hold once drained gives the server's board, and the same of the board of the broadcast log. It survives every step as
long as the pending commands commute with one another on the boards that can occur; a client belongs to the set as long
as its own latest join was safe, whatever other clients do (`SafeAfter`). `OverlapTheorem` takes the commands that
commute on every board (the table `MayReorder`, exact by `CommuteExactly`). `SingleOwnerConverges` takes the boards on
which each item belongs to the user its id was issued to; there all commands of different users commute, undo and
clear-mine included. The equality of the two logs needs no condition on joins at all, and a client that is there before
the first command (`EarlyClientsConverge`) or in a run without undo (`LateJoinersConverge`) needs none either.

*Unrestricted convergence is false, and exactly when.* The project report says that sending every command to every
client keeps all of them in step; the code does so among clients (`ClientsAgree`), not between clients and server.
`RacesExactly` decides for every two packages whether two users who send them at the same time can make a client differ
from the server, over all runs. Its table `RaceFree` is a little wider than `MayReorder`, because a run never has
negative ids, and no board has an insert's id before that insert: `Remove(0)` and an undo, or an insert and another
user's undo, commute there though not on every board. `RacesFromAnywhere` gives the diverging run from every reachable
state. `JoinRunExactly` says for every run that lands the commands in flight, in any order, when the client that joined
before them ends with the server's board, and `UndoJoinExactly` that with one undo in flight it does so if and only if
the user owned at most one item.

*Replaying a log.* `SuffixReplaysExactly` says for every log without undo which of its suffixes can be applied again;
the one danger is an edit that hands an item to a user whose items the suffix cleared before it.

*The lexer and the command line, for every input.* `ScanExactly` proves the table-driven lexer, with its stack and its
rollback, equal to a direct description of the language on all texts, errors included. `LinesExactly` says what every
token list does: what the command that it shows is for, and otherwise nothing, with three exceptions that it names.

*The draw command.* The report says that handlers validate what they send. The code sends the empty item of user -1 for
a malformed `draw`; the model does the same (`DrawGrammarExactly`).

## Idealisations

- Sockets deliver frames reliably and in order, and two writers never interleave bytes on one socket.
- `user_id_rec++` is atomic. Registration together with taking and sending the snapshot is one step (`Connect`,
  `Reconnect`). As written, a broadcast could fall between taking the snapshot and sending it.
- Draw ids, user ids and coordinates are unbounded integers; 32-bit ranges appear where `stoi` checks them, 8-bit ones
  where colours are cast, and 32-bit lengths in frame headers.
- A package is a value: its message type with the payload that the type selects. Clocks, `poll` and lock timeouts are
  choices of the environment.
- Input text does not contain the byte 0xFF (which `nextChar` uses for the end of input), and integers in a command are
  in the range of `stoi` (whose exception the client does not catch).

## Model

| member | source | states |
|---|---|---|
| DrawLists.DrawList.Edit | Common/DrawList.cpp:76-85 | an item that is present takes the new data but keeps its draw id; an absent one stays absent |
| DrawLists.DrawList.Clear | Common/DrawList.cpp:148-162 | the erasing iterator loop removes exactly the user's items, or everything for user -1 |
| DrawLists.DrawList.Undo | Common/DrawList.cpp:171-180 | the reverse scan removes the user's item with the highest id and nothing else |
| DrawLists.DrawList.Serialize | Common/DrawList.cpp:188-197 | the traversal lists the items in ascending key order |
| DrawLists.DrawList.Load | Common/DrawList.cpp:206-216 | the board is replaced by the fold of the bulk list |
| Boards.UndoTakesTheHighest | Common/DrawList.cpp:171-180 | n undos remove exactly the user's n items of highest id and keep every other item unchanged |
| Boards.UndoAllIsClear | Common/DrawList.cpp:148-180 | undoing as often as a user owns items equals clear for that user, for any user but -1 |
| Boards.LoadLastWins | Common/DrawList.cpp:206-216 | after load of any bulk list a key is present iff some item has that id, and the last such item wins |
| Boards.SerializedAscends | Common/DrawList.cpp:188-197 | serialize lists stored items only, by strictly ascending id |
| Boards.SnapshotRoundTrip | Common/DrawList.cpp:188-216 | load of serialize gives back the board |
| Boards.SerializedDeterminesBoard | Common/DrawList.cpp:248-258 | two boards feed generate_hash the same items iff they are the same board |
| Commands.CommuteExactly | Client/User_Functionality/Execute_Command.cpp:15-57 | two draw packages commute on all boards iff the table MayReorder allows it, for every pair of packages |
| Commands.IdempotentExactly | Client/User_Functionality/Execute_Command.cpp:15-57 | executing a package twice equals executing it once iff it is not an undo |
| SuffixReplay.ReplayIsEffect | Common/DrawList.cpp:48-162 | every log without undo acts on each key as one of three effects that carry the users cleared meanwhile |
| SuffixReplay.SuffixReplaysExactly | Common/DrawList.cpp:48-162 | for every log without undo, clear-mine included: a suffix applied again changes nothing, on any board, iff no key is handed to a user whose items the suffix cleared before |
| SuffixReplay.SuffixReplayed | Common/DrawList.cpp:48-162 | every suffix of a log of inserts, edits, removes, bulks and clear-alls can be applied again |
| SuffixReplay.ClearMineSpoilsReplay | Common/DrawList.cpp:76-162 | clearing a user and then editing an item replays iff the edit does not hand it to that user, for every user, item and data |
| Reordering.OutOfTurn | Server/Execute_And_Broadcast.cpp:59-64 | taking one command of a commuting log ahead of the others does not change the result |
| Reordering.ReplayedTwice | Server/Client_Handler.cpp:27-30 | replaying a commuting log on its own result changes nothing iff every user who undid in it is left with no item |
| Invariants.ProgramOrderKept | Server/Execute_And_Broadcast.cpp:14-64 | every step keeps: a user's packages are executed and broadcast in receive order, at most one in flight |
| Invariants.WindowsKept | Server/Execute_And_Broadcast.cpp:59-64 | every step keeps: each executed command is broadcast or pending once, and broadcasts seen at execution come first |
| Invariants.FirstInBothLogs | Server/Execute_And_Broadcast.cpp:15-64 | a command whose broadcast precedes another's execution is first in the execute log and in the broadcast log |
| Invariants.FreshIdsKept | Server/Client_Handler.cpp:71-76 | every step keeps: inserts have distinct issued ids, ascending per user, and the server's board is keyed by issued ids |
| Invariants.ReplicasFollowKept | Server/Server.cpp:51-57 | every step keeps: applied, queued and undelivered frames are the snapshot and the broadcast log since, and client boards are keyed by draw id |
| Invariants.CommandsConserved | Server/Client_Handler.cpp:66-91 | in every run what a handler received is its broadcasts, then at most one package in flight, then its buffer |
| Delivery.ReceivedAsSent | Server/Client_Handler.cpp:66-82 | in every run a handler records every valid package that its client sends, in order, whatever is in its buffer; inserts change in their id only |
| Delivery.DeliveredAsSent | Server/Client_Handler.cpp:66-91 | in every run what a client sent since it connected is what was broadcast for it, then at most one package in flight, then its buffer |
| Delivery.BurstDelivered | Server/Client_Handler.cpp:66-91 | from every reachable state an idle client can send any packages at once, and there is a run to rest in which all of them are broadcast in order |
| Delivery.LeaveAndReturn | Server/Client_Handler.cpp:51-60 | a client can go and come back whatever is in flight; its handler keeps the buffer and it starts again from the server's board |
| Delivery.TryAgain | Server/Execute_And_Broadcast.cpp:15-20 | a timed-out lock attempt changes nothing and can be repeated |
| Invariants.InsertIdsUnique | Server/Client_Handler.cpp:71-76 | in every run two received inserts never share a draw id, and a user's ids grow in send order |
| Invariants.StampedOnce | Server/Client_Handler.cpp:71-76 | in every run an insert gets an id that no insert had before and none gets later, whoever has left |
| Convergence.SyncKept | Server/Execute_And_Broadcast.cpp:11-65 | every step keeps the logs in sync, and each client whose own latest join was safe, while commands in flight commute; joins of other clients are unrestricted |
| Convergence.JoinExactly | Server/Client_Handler.cpp:23-30 | a client that joins now is in sync iff no undo in flight finds an item on the server's board |
| Convergence.OverlapTheorem | Server/Execute_And_Broadcast.cpp:15-64 | if commands with overlapping windows may be reordered, both logs give the same board once all is broadcast, whoever joins, and every client whose own latest join was safe ends with it |
| Convergence.UndoFreeJoins | Server/Client_Handler.cpp:23-30 | in a run without undo every join is safe |
| Convergence.LateJoinersConverge | Server/Client_Handler.cpp:23-30 | under the overlap condition and without undo, clients that load a snapshot at any time end equal to the server |
| Convergence.InsertsConverge | Non_Visual_Test_Runner.py:131-145 | runs of inserts converge in every interleaving, with equal input for the hash |
| SingleOwner.OwnersCommute | Client/User_Functionality/Execute_Command.cpp:15-57 | own commands of two users commute, whatever they are, on boards owned item by item |
| SingleOwner.SingleOwnerConverges | Server/Execute_And_Broadcast.cpp:11-65 | if users edit and remove only their own items and nobody clears all, in every interleaving the logs agree and every client whose own latest join was safe converges, with undo and clear-mine |
| SingleOwner.EarlyClientsConverge | Client/User_Functionality/Execute_Command.cpp:10-57 | the same for each client connected before the first command, with other clients connecting, reconnecting and leaving at any time |
| SingleOwner.ClearMineKeepsOthers | Common/DrawList.cpp:148-162 | in every run clear-mine of any connected user, the first included, removes that user's items and keeps everybody else's; -1 removes all |
| SingleOwner.UndoAllIsClearMine | Common/DrawList.cpp:148-180 | for every connected user undoing as often as one owns items is clear-mine |
| SingleOwner.OwnCommands | Server/Client_Handler.cpp:71-76 | undo, clear-mine, own inserts, and edits and removes of issued ids count as own commands of every connected user |
| Agreement.ClientsAgree | Server/Server.cpp:51-57 | two clients that stay connected and agreed at one log point agree whenever they are at one log point again, for all packages |
| Agreement.Settle | Client/Message_Reader_Thread.cpp:26-40 | from every state a run leads to rest without executing anything more |
| Races.RacesExactly | Server/Execute_And_Broadcast.cpp:15-64 | for every two packages as sent: in no run in which two users send them at the same time does an in-sync client end with another board than the server, iff the table RaceFree has them |
| Races.RacesFromAnywhere | Server/Execute_And_Broadcast.cpp:59-64 | from every reachable state with an in-sync client and two idle users there is a run to rest after which client and server agree iff the two packages commute on the board |
| Races.RacedEnds | Server/Execute_And_Broadcast.cpp:59-64 | in every run of two racing packages the client ends with them applied in one order or in the other, the server in the order executed |
| Races.BoardAdvances | Server/Execute_And_Broadcast.cpp:25-57 | in every run the server's board changes by the executed packages in order, bulk packages excepted |
| Joins.JoinRunExactly | Server/Client_Handler.cpp:23-30 | in every run that lands the flight, in any order, a client that joined before ends with the server's board iff no undo in flight finds an item on it |
| Joins.JoinLands | Server/Client_Handler.cpp:57-60 | such a run exists from every state, for a connecting and for a reconnecting client |
| Joins.UndoJoinExactly | Server/Client_Handler.cpp:27-30 | in every run that lands an undo after a client has joined, the client ends with the server's board iff the user owned at most one item before the undo |
| Joins.UndoJoinRun | Server/Client_Handler.cpp:27-30 | from every reachable state with nothing in flight there is such a run |
| Servers.Server.Welcome | Server/Client_Handler.cpp:24-30 | a new user gets the next id and the serialized board as the first frame |
| Servers.Server.ReceivePackage | Server/Client_Handler.cpp:66-82 | an insert is stamped with the next draw id, invalid packages are dropped, the rest is buffered |
| Servers.Server.ApplyToList | Server/Execute_And_Broadcast.cpp:25-57 | the switch applies the package to the board and ignores bulk and message packages |
| Servers.Server.ExecutePackage | Server/Execute_And_Broadcast.cpp:14-60 | the first critical section pops and executes; without the lock nothing changes |
| Servers.Server.BroadcastPackage | Server/Server.cpp:51-57 | the loop over the connection map sends the package to every socket once |
| Servers.Server.DropSocket | Server/Thread_Functions.cpp:40-54 | a disconnect closes that socket, no other, and keeps every buffer |
| Servers.Server.WelcomeBack | Server/Client_Handler.cpp:57-60 | a reconnect sends the board and keeps the handler's buffer |
| Servers.Server.EndHandler | Server/Client_Handler.cpp:42-44 | an ending handler takes its buffer and its socket with it |
| Clients.Client.ExecuteCommand | Client/User_Functionality/Execute_Command.cpp:10-74 | the board is changed as the package says; errors set the kill flag; draw packages ask for a redraw |
| Clients.Client.DrainQueue | Client/Render_Thread.cpp:85-94 | draining executes the queued packages in order and leaves the queue empty |
| Clients.Client.RenderLoop | Client/Render_Thread.cpp:83-113 | the board is the replay of all frames of the rounds run until an error package or another thread sets the kill flag |
| Clients.Client.RenderTestLoop | Client/Render_Thread.cpp:7-25 | the board is the replay of the frames with the last package repeated after every round |
| Clients.RoundsRunExactly | Client/Render_Thread.cpp:83-94 | a loop runs up to and including the first round in which the kill flag is set or an error package arrives |
| Clients.TestLoopUndoes | Client/Render_Thread.cpp:11-25 | in the test loop a round that ends with an undo and n quiet rounds after it undo n + 1 times more |
| Clients.SpinsHarmless | Client/Render_Thread.cpp:11-25 | for streams without undo the test loop builds the board of the render loop |
| Clients.SpinExactly | Client/Render_Thread.cpp:24-24 | one more execution changes the board iff the package is an undo whose user still has items |
| Clients.SpinsUndoMore | Client/Render_Thread.cpp:24-24 | k spins after an undo are k more undos, and enough of them clear the user's items |
| Registry.ConnectionMap.CheckKillFlag | Server/Thread_Functions.cpp:13-30 | on, off or missing, from the map and both kill flags |
| Registry.ConnectionMap.DisconnectUser | Server/Thread_Functions.cpp:40-54 | the record under the name, and no other, becomes inactive and its socket is closed |
| Registry.ConnectionMap.RemoveUser | Server/Thread_Functions.cpp:64-81 | the name leaves the map and its record is inactive, with its socket closed |
| Registry.ConnectionMap.EraseEntry | Server/Thread_Functions.cpp:69-80 | exactly the given name leaves the map |
| Registry.ConnectionMap.ReConnectUser | Server/Thread_Functions.cpp:92-107 | the record becomes active with the new socket; its id goes out on the old one |
| Registry.ConnectionMap.CreateNewUser | Server/Thread_Functions.cpp:115-126 | a record is filed under its own name unless the name is taken |
| Registry.AwaitReconnect | Server/Client_Handler.cpp:137-170 | the wait succeeds iff the user is back within 60 ticks before a kill flag is seen |
| Lifecycle.OwnedKept | Server/Client_Handler.cpp:182-220 | every step keeps the bijection of map entries and registered handlers, distinct user ids and the tick range |
| Lifecycle.RegistryTheorem | Server/Thread_Functions.cpp:64-126 | in every run at most one handler is registered under a name or a user id, no entry points to an ended handler, registered handlers are exactly those in the map |
| Lifecycle.ShutdownBound | Server/Client_Handler.cpp:34-44 | once the kill flag is set a handler takes at most ten more steps of its own, in every interleaving |
| Lifecycle.NotStuck | Server/Client_Handler.cpp:34-117 | a handler that has not ended always has a step to take |
| Lifecycle.EndedLeavesEmpty | Server/Server_Main.cpp:93-96 | when all handlers have ended the map is empty, so the server's exit loop ends |
| Lifecycle.WaitBound | Server/Client_Handler.cpp:137-166 | however other threads run, one wait for a reconnect takes at most 60 ticks |
| HandlerPaths.NewNameRegisters | Server/Client_Handler.cpp:192-203 | a client with a free name ends up registered under it with the next user id, and nothing else changes |
| HandlerPaths.SecondIsDropped | Server/Thread_Functions.cpp:115-126 | of two clients under one free name the second to register is dropped |
| HandlerPaths.ActiveNameTurnedAway | Server/Client_Handler.cpp:210-218 | a client under the name of an active user is turned away and nothing happens to that user |
| HandlerPaths.NameRevived | Server/Client_Handler.cpp:206-208 | a client under the name of an inactive user makes that user's record active; its own thread ends and nothing else changes |
| HandlerPaths.WaitIsOver | Server/Client_Handler.cpp:151-163 | the waiting handler then leaves the wait, for the place in the loop that it came from |
| HandlerPaths.TooLateToRevive | Server/Thread_Functions.cpp:96-99 | a reconnect after the record is gone ends the new thread and changes nothing |
| HandlerPaths.NoName | Server/Client_Handler.cpp:186-190 | a thread whose client goes before it has sent a name ends and changes nothing |
| HandlerPaths.QuietRound | Server/Client_Handler.cpp:34-94 | without a kill flag a round of the loop with an active client leaves the whole state as it was |
| HandlerPaths.KilledRound | Server/Client_Handler.cpp:42-44 | after the kill flag a round takes the own record, and no other, out of the map and ends the thread |
| HandlerPaths.ClientLeaves | Server/Client_Handler.cpp:51-55 | a client that disconnects leaves an inactive record in the map and a handler that waits from tick zero |
| HandlerPaths.ClientTimesOut | Server/Client_Handler.cpp:96-108 | so does one that was inactive too long |
| HandlerPaths.GivesUp | Server/Thread_Functions.cpp:64-81 | giving up takes the own record, and no other, out of the map and ends the thread |
| HandlerPaths.WaitEnds | Server/Client_Handler.cpp:137-170 | in every interleaving a wait ends because of a kill flag, because the user is back, or after exactly 60 inactive ticks; only the second leads back to the loop |
| Handlers.HandlerPool.Spawn | Server/Client_Handler.cpp:6-16 | a new thread brings a record that no other thread has, and the pool stays valid |
| Handlers.HandlerPool.TakeName | Server/Client_Handler.cpp:186-190 | the handler has the name its client sent; no record and no entry changes |
| Handlers.HandlerPool.PrepareRecord | Server/Client_Handler.cpp:192-198 | for a name that is not in the map the own record gets a fresh user id and the name, before it is filed |
| Handlers.HandlerPool.FileRecord | Server/Thread_Functions.cpp:115-126 | filing succeeds iff the record is then the one under its name; a handler that lost the race is not in the map |
| Handlers.HandlerPool.LookAtUser | Server/Client_Handler.cpp:206-218 | the handler learns whether a record under its name is active |
| Handlers.HandlerPool.ReviveUser | Server/Thread_Functions.cpp:92-107 | only the record that the map has under the name becomes active, and the reviving thread ends |
| Handlers.HandlerPool.PollFlags | Server/Client_Handler.cpp:42-44 | a registered handler always finds its name, so it leaves iff the server exits |
| Handlers.HandlerPool.PollWhileWaiting | Server/Client_Handler.cpp:144-146 | the same at each tick of a wait |
| Handlers.HandlerPool.TimeOut | Server/Client_Handler.cpp:96-104 | a handler makes its own record inactive and no other |
| Handlers.HandlerPool.StartWait | Server/Client_Handler.cpp:133-135 | a registered handler always finds its record, and it becomes inactive |
| Handlers.HandlerPool.LookAtOwnRecord | Server/Client_Handler.cpp:148-163 | the wait ends iff another thread has revived the own record |
| Handlers.HandlerPool.DeactivateUser | Server/Thread_Functions.cpp:64-67 | the record that becomes inactive is the own one |
| Handlers.HandlerPool.UnfileRecord | Server/Thread_Functions.cpp:69-80 | the own record is out of the map before the thread ends |
| Handlers.HandlerPool.Exit | Server/Server_Main.cpp:93-96 | the kill flag is set and every record stays as it is |
| Handlers.HandlerPool.EntriesAreLive | Server/Thread_Functions.cpp:64-126 | a record object is in the map iff its thread is registered, under its own name; never after the thread has ended |
| Handlers.HandlerPool.UsersDistinct | Server/Client_Handler.cpp:192-198 | two entries of the map have two user ids |
| Dfsa.DFSA.InitTransitions | Client/Lexer/Lexer_Utility/Transitions.cpp:10-51 | the filled table is the shipped transition function |
| Lexing.Lexer.constructor | Client/Lexer/Lexer_Utility/TokenMap.cpp:17-26 | a new lexer has the shipped table and accepting states |
| Lexing.Lexer.RunAutomaton | Client/Lexer/Lexer.cpp:28-81 | the run stops where the automaton does, and the stack holds the states since it last accepted |
| Lexing.Lexer.RollBack | Client/Lexer/Lexer.cpp:87-104 | the rollback ends at the longest accepted prefix, with the index and lexeme to match, or fails iff none is accepted |
| Lexing.Lexer.NextToken | Client/Lexer/Lexer.cpp:28-128 | for any proper table: throws on a syntax error or if no prefix is accepted, else gives the token of the longest accepted prefix and leaves the index past it |
| Lexing.Munch | Client/Lexer/Lexer.cpp:36-104 | there is no lexeme iff the run hits the syntax error or accepts nowhere; else it is the longest accepted prefix, never empty |
| Lexing.Lossless | Client/Lexer/Lexer.cpp:136-153 | the raw lexemes, all non-empty and accepted, concatenate to the whole input |
| Lexing.NoRollBack | Client/Lexer/Lexer_Utility/Transitions.cpp:16-49 | with the shipped table a token never rolls back over a consumed character |
| Lexing.Lexer.GenerateTokens | Client/Lexer/Lexer.cpp:136-153 | the loop ends with exactly the visible tokens of the lexemes, or throws, after at most 2n character reads either way with the shipped table |
| Scanner.ScanExactly | Client/Lexer/Lexer.cpp:28-153 | for every input the lexer gives the tokens of a reference scanner without automaton, and throws exactly where that has none: unknown words, stray characters, lone signs, letters after digits, unclosed texts |
| Scanner.NamedExactly | Client/Lexer/Lexer_Utility/Identify.cpp:3-30 | a word is identified as a keyword iff it is one in some mixture of cases |
| CommandText.IntRoundTrip | Client/User_Functionality/Create.cpp:46-50 | stoi inverts decimal text for exactly the 32-bit integers |
| CommandText.KeywordIdentified | Client/Lexer/Lexer_Utility/Identify.cpp:3-30 | each keyword is identified as its own token |
| CommandText.LineTokens | Client/Lexer/Lexer.cpp:136-153 | a line of keywords in any case, integers and quoted texts is read back as exactly these words |
| CommandText.QuotedExactly | Client/Lexer/Lexer_Utility/Transitions.cpp:40-49 | a text in quotation marks is read back as itself iff it has no quotation mark and no minus sign |
| CommandLines.CommandLine.ParseInput | Client/User_Functionality/Parse_Input.cpp:7-43 | for every line: one outside the language of the scanner changes nothing, any other is dispatched on its tokens |
| CommandLines.DrawGrammarExactly | Client/User_Functionality/Create.cpp:15-141 | draw accepts exactly the lines that spell out an item for the current tool and colour; any other line sends the empty item of user -1; the selection is edited and dropped |
| CommandLines.DispatchMeans | Client/User_Functionality/Parse_Input.cpp:7-289 | dispatching the tokens of a well-formed command does exactly what it is for, for every kind of command and in any session |
| CommandLines.LinesExactly | Client/User_Functionality/Parse_Input.cpp:7-289 | for every token list: what the command it shows is for; otherwise nothing, except that draw sends the empty item, colour takes any integers modulo 256 and exit disregards the rest |
| CommandLines.ActsOnCommandsOnly | Client/User_Functionality/Parse_Input.cpp:66-289 | a line other than draw, colour and exit that has any effect shows a well-formed command |
| CommandLines.TypeCommand | Mixed_Command_Test .py:123-143 | a well-formed command typed into the command line, keywords in any case, changes the session exactly as intended |
| CommandLines.CommandRoundTrip | Mixed_Command_Test .py:123-143 | the text of a well-formed command tokenises, its numbers fit, and dispatching it does exactly what it is for |
| Framing.HeaderRoundTrip | Client/Client.cpp:114-114 | the four header bytes determine every 32-bit length |
| Framing.NetworkOrder | Client/Client.cpp:114-114 | the header is in network byte order: appending eight bits to the length appends a byte |
| Framing.DecodeFrame | Client/Client.cpp:139-167 | a frame in front of any bytes decodes to its message and those bytes |
| Framing.Socket.SendMessage | Client/Client.cpp:111-131 | the chunk loop puts exactly one frame on the stream |
| Framing.Socket.ReceiveMessage | Server/Server.cpp:93-122 | whatever the payload reads return, the first message is delivered and consumed, or the sentinel is returned |
| Framing.Socket.ReceiveLoop | Client/Message_Reader_Thread.cpp:17-41 | for any fragmentation with whole headers the queue gets exactly the messages before the sentinel and then the sentinel itself, and the loop ends |
| Framing.SentinelExactly | Server/Server.cpp:103-112 | the whole sequence arrives iff no message reads like the sentinel |
| Framing.CutAtSentinel | Client/Message_Reader_Thread.cpp:31-39 | the first message that reads "Disconnect" cuts off the rest, and nothing before it is lost |

## Left out

- Rendering, rulers, mouse handling, fonts, help and list printing: user interface without state that the boards depend on.
- Socket calls, `poll`, `accept`, wall-clock time and inactivity timing: only their outcomes appear, as steps or parameters.
- Protobuf encoding and SHA-256: library code. Equality is claimed for the items fed to the hash, not for hashes.
- A message that does not parse: `ParseFromString` is not modelled, so every frame is a package.
- Resuming a session on the old poll descriptor after a reconnect: only the registry, activity and buffer facts are modelled.
- The wrap-around of 64-bit draw ids and of user ids: ids are unbounded.
- Convergence without conditions: it is false of the code, see `RacesExactly` and `UndoJoinExactly`.
- Frames larger than 2^31 - 1 bytes: the lengths are kept in an `int`, and both loops require them to fit.
- CommandLines.CommandLine.ParseInput: requires numbers in the range of `stoi` and no byte 0xFF, because the source does not survive the one and misreads the other.
- Clients.Client.RenderLoop: the frames that arrive during a round, and a kill flag set by another thread, are given round by round, because the flag is read only between rounds and of the queue only the order matters.
- Framing.Socket.ReceiveLoop: the kill flag is set by this loop only; when another thread sets it, the loop stops after some message and the queue gets a prefix.
- Invariants.ReplicasFollowKept: the frames that one client alone is sent and that change no board (its id, the welcome after a reconnect, the inactivity error, after which the client stops) are not part of the channels.
- Invariants.InsertIdsUnique: compares inserts of handlers that are alive; `StampedOnce` covers those of handlers that have left.
- Registry.ConnectionMap.RemoveUser: its two critical sections run back to back; in `Handlers` they are the two steps `DeactivateUser` and `UnfileRecord`, with other threads in between.
- Registry.AwaitReconnect: what the handler sees at each tick is a parameter; `Lifecycle` has the interleaving with other threads.

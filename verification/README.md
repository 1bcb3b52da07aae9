# Verification model of the game server

This project models the server side of the repository: a single-threaded TCP game server with login,
matchmaking, rooms, chat, heartbeats, disconnect and reconnect, and a leaderboard. It proves what keeps the
server's tables in agreement, what the sweeps and the close callback do, exactly when the process ends, and that
nothing is lost between `send` on one side and dispatch on the other.

Check everything with `dafny verify dfyconfig.toml`.

## How it is built

* **The code** is modelled in its own form: a class per C++ class with the same fields (`Session`, `MatchQueue`,
  `Room`, `RoomManager`, `PlayerManager`, `ConnectionManager`, `PlayerStateManager`,
  `MemoryPlayerStateRepository`, `GameServer`), loops where the code has loops, byte arrays filled in place in the
  codec. Every method is proved to compute a function of the old state.
* **The server as a value** (`ServerModel`) collects all tables in one record. Its functions are what those
  methods are proved against: `GameServer.Valid` ties the record to the objects, and every handler, the close
  callback, the parse loop and both timers are proved to do to the objects what the function does to the record.
* **Runs** (`Runs`) are sequences of events: accept, one message, a close, the destruction of a closed session,
  either sweep, time passing. An event is one callback on the event loop, so it is atomic. A read is a run of its
  messages (`ServerStreams.ReadIsARun`).
* **Invariants.** `Soundness` is what every run keeps, whatever clients send. `Discipline` is the full agreement
  of the tables, for clients that keep to the client discipline below. `Effects` says once which tables each
  message can change; the results on matches, chats, reconnects, sweeps and draining build on these three.
* **Numbers.** The theorems name what is on the wire and on the clock by its value: message ids (1001 and 1002 for a
  login and its answer, and so on), the first player id 10000, the first room id 1, the 16 s and 31 s of the two sweeps
  in nanoseconds, 1,048,576 bytes of body. What a request gets is stated per id, with the reply's serialized body
  (`Identities`, `Agreement`, `Answers`); what the repository holds, per record field (`Registrations`).

`Fault` is an execution the C++ code does not survive: an uncaught `std::out_of_range` from `.at`, or a call
through a null `shared_ptr`. `main` catches nothing, so either ends the process.

**The client discipline** (`Runs.Disciplined`): a login or reconnect comes only on a session not yet bound to a
player; a reconnect names a player id above 0, as the shipped client checks (client/ClientSimulator.cpp:280); a
match request carries the session's own player id (docs/protocol.md:287) and comes only from a player in no room;
and no handler runs on a closed session.

## Where a promise fails, and exactly when it holds

* The process ends exactly in two cases (`Crashes.ServerEndsIff`). A chat does it when its room does not exist or
  lists a player whose session cannot be found: with disciplined clients, a member who has lost the connection
  (`Crashes.DisciplinedServerEndsIff`; run: `Counterexamples.ChatToAnAbsentMember`). A match does it when one of the
  two players has no session that can be found, which undisciplined clients can bring about with two requests
  (`Counterexamples.TwoStrangersMatched`), and also through a weak pointer that has expired
  (`Counterexamples.MatchWithAGonePlayer`).
* The room id reported after a reconnect is the current one exactly if the player had no stored state when the match
  was made (`RememberedRooms.RememberedRoomIsCurrentIff`; run: `Counterexamples.ForgottenRoom`). `save_online` never
  overwrites, so a player who disconnected before being matched is later told -1.
* Rooms come to nothing exactly if nobody who already had a seat is matched again
  (`RoomHistory.RoomsComeToNothingIff`; run: `Counterexamples.RematchHappens`). Disciplined clients never do that; when
  it happens the new room stays for ever (`RoomHistory.RematchLeaksARoom`).

* After a heartbeat sweep no watched session is silent for too long, exactly if no silent one was closed already
  (`WatchedSessions.SweepOfAnyClients`). A login or reconnect handled on a closed session brings that about, and such a
  session is watched for ever (`WatchedSessions.StuckForEver`; run: `Counterexamples.LoginAfterClose`).

Where code and documentation disagree, the model follows the code:

* The header is little-endian (src/net/MessageCodec.cpp:11-32); docs/protocol.md:37 says big-endian.
* A received body of any length is accepted (src/net/MessageCodec.cpp:54-70); docs/protocol.md:61 says that one over
  1 MiB closes the connection. Only the encoder applies the limit, by producing an empty packet.
* A match request is taken for the player id it carries (src/service/MatchService.cpp:21); docs/protocol.md:287 says
  that the session's id counts.
* A chat goes to the room the request names, whoever the sender is (src/service/ChatService.cpp:34-41);
  docs/protocol.md:377 says to the sender's room.

## Model

| member | source | states |
|---|---|---|
| `Drain.ServerDrains` | src/GameServer.cpp:111-172 | From wherever disciplined clients can bring the server, closing every open session (in any order, repeats allowed), at least 31 s of quiet and one reconnect sweep leave the player map, the queue and its set, the watched sessions, the reconnect states, the rooms and the room map empty; no close and no sweep can fail on the way |
| `Drain.QuietServerDrains` | src/GameServer.cpp:161-172 | With disciplined clients, the same for any reachable world in which no session is open and every disconnection is at least 31 s old, whoever closed the sessions |
| `HeartbeatSweeps.HeartbeatSweepIsExact` | src/net/ConnectionManager.cpp:8-20 | With disciplined clients the heartbeat sweep, in any visiting order, takes down exactly the watched sessions silent for at least 16 s, although every close erases from the set being swept; the complete state afterwards is given, every session still watched is open and not stale, and exactly the closed ones' players went Offline |
| `HeartbeatSweeps.CloseIsExact` | src/GameServer.cpp:111-124 | With disciplined clients, the complete effect of one close: nothing on a session already closed; the player leaves the queue, the player map and the watched set and goes Offline in room and reconnect window; a session nobody logged in on leaves only a state for player 0 |
| `KeepAlive.TalkingKeepsAlive` | src/net/Session.cpp:34-53 | In every run, whatever the clients do, a session that sends a message is still open less than 16 s later unless it was closed itself: no sweep takes it down |
| `ReconnectSweeps.ReconnectSweepIsExact` | src/GameServer.cpp:161-172 | In every reachable world, disciplined or not, the sweep removes exactly the Offline players whose disconnection is at least 31 s old, from their own rooms and from the reconnect window, drops exactly the rooms left without members, and leaves all other members, marks, states and tables as they were; it cannot fail |
| `ReconnectSweeps.SweepEmptiesRoomsIff` | src/room/RoomManager.cpp:11-27 | When everybody in the room map has expired, the sweep empties the rooms if and only if nobody holds a seat in a room the map does not lead to |
| `ReconnectSweeps.ForgottenExactly` | src/room/RoomManager.cpp:11-27 | Removing players one by one, in any order, gives the table computed at once from the set of those removed |
| `Agreement.OneOpenSessionPerPlayer` | src/player/PlayerManager.cpp:8-30 | With disciplined clients, for p > 0, the player map leads from p to s if and only if s is an open session bound to p; so no two open sessions share a player, through any number of disconnects and reconnects |
| `Agreement.RoomRecordsAgree` | src/room/RoomManager.cpp:89-124 | With disciplined clients the four records of a seat agree: the map leads from p to r if and only if room r lists p, and then the room's own state and the repository say r as well |
| `Agreement.RoomMarksAgree` | src/room/Room.cpp:114-133 | With disciplined clients a room marks a member Offline exactly when the reconnect window holds an Offline state for the member, which is exactly when no session serves the member |
| `Agreement.MatchedPairIsReady` | src/service/MatchService.cpp:17-50 | With disciplined clients a message 2001 that completes a pair cannot fail: both players are served by different open sessions and sit in no room. The complete next state: empty queue, one new room with exactly these two, Online, under the next id, both mapped to it, the room id of their two records and nothing else of any record, a 2002 to the requester, then a 3001 to each of the two, and no mail for anybody else |
| `Agreement.MatchWithoutPair` | src/service/MatchService.cpp:17-31 | In every reachable world every other message 2001 only gets its sender one 2002, with the reason of a refusal, and puts the player in line exactly if the id is positive and nobody waits; nothing else changes |
| `Crashes.ServerEndsIff` | src/room/RoomManager.cpp:109-112 | For any clients whatever, in every reachable world, an event ends the process if and only if it is one of two messages: a chat to a room that does not exist or lists a player whose session cannot be found, or a match of two players of whom one has no session that can be found; a session cannot be found when the player map has no entry or its weak pointer has expired |
| `Crashes.DisciplinedServerEndsIff` | src/service/ChatService.cpp:29-43 | With disciplined clients only the chat is left, and the room itself shows it: it does not exist or marks a member Offline |
| `RememberedRooms.RememberedRoomIsCurrentIff` | src/player/PlayerStateManager.cpp:43-51 | Over whole runs of any clients: once a match has seated a player, then for as long as the player keeps that seat the room remembered for a reconnect is the right one if and only if the player had no stored state when the match was made; otherwise it is -1 |
| `RememberedRooms.RememberedRoomExists` | src/service/ReconnectService.cpp:87 | In every reachable world a remembered room id other than -1 is the player's current room, which exists and lists the player: a reconnect never reports a dead or foreign room |
| `ReconnectWindow.WindowIsKept` | src/GameServer.cpp:161-172 | With disciplined clients, and however a player went Offline: in every continuation without that player's return, state and seat are unchanged less than 31 s after the disconnection, and a reconnect with the player's own token from any open connection is accepted and leads to the same room |
| `ReconnectWindow.CloseOpensTheWindow` | src/GameServer.cpp:111-124 | With disciplined clients a close starts that window at that moment, for the room the player had |
| `ReconnectWindow.SweepOpensTheWindow` | src/net/ConnectionManager.cpp:16-19 | So does the heartbeat sweep for the player of every silent connection it closes |
| `MatchHistory.MatchesAreFirstComeFirstServed` | src/service/MatchService.cpp:26-47 | In every run of the server, whatever the clients do: the players put into rooms so far, pair by pair in the order of the room ids, followed by whoever waits, are the accepted match requests in order, without those cancelled by a close |
| `MatchHistory.StepQueue` | src/match/MatchQueue.cpp:11-51 | Every server event moves the line exactly by its guarded join, its pop of two, or the leaves of the sessions it closes |
| `Registrations.RepositoryIsTheHistory` | src/service/LoginService.cpp:61-90 | In every run, whatever the clients do, the whole repository is the history of the run: the named logins are the players 10000, 10001, … in order, and the record of each holds the name and the time of that login, online, no logout, the number of its chats as score, and the latest room it was matched into (-1 for none) |
| `Registrations.StepRecords` | src/room/RoomManager.cpp:114-121 | Event by event: a match sets the room id of its two players and nothing else of any record, a chat adds one to its sender's score and nothing else, a named login makes one new record, and no close, sweep or other message changes any |
| `Answers.EveryRequestIsAnswered` | src/net/MessageId.h:12-31 | Whoever sends it, a request 1001, 2001, 5001, 9001 or 9101 that does not end the process is answered first of all to its own session, with a reply of its kind, under its id plus one, the body being that reply's serialization |
| `Answers.HeartbeatIsEchoed` | src/service/HeartbeatService.cpp:19-46 | In every world a message 9001 gets exactly one 9002, to its sender alone, with the client's time and the server's steady time in milliseconds cut toward zero; the sender's activity is noted and nothing else changes |
| `Answers.RankingIsAnswered` | src/service/RankingService.cpp:30-56 | In every world a message 5001 gets exactly one 5002, to its sender alone, with a right top-N of the repository for the number its body asks for; the sender's activity is noted and nothing else changes |
| `Answers.OtherIdsDoNothing` | src/net/MessageDispatcher.cpp:13-21 | A message with any id but 1001, 2001, 4001, 5001, 9001 and 9101 changes nothing but its sender's last activity |
| `WatchedSessions.SweepOfAnyClients` | src/net/ConnectionManager.cpp:8-20 | In every reachable world, under any clients, the heartbeat sweep cannot fail; a session is open afterwards exactly if it was open and not among the silent watched ones, and no watched session is silent for too long exactly if every silent one had been open |
| `WatchedSessions.StuckForEver` | src/net/Session.cpp:80-83 | A session that is closed and still watched stays so in every continuation of the run: close does nothing on it, so every later sweep finds it again |
| `Agreement.ChatReachesTheClients` | src/room/Room.cpp:74-84 | With disciplined clients, once what was sent to a client has been written, and however it is cut, that client has dispatched what it was sent before and then the chat notice 4002 exactly once if it serves a member of the room and the notice is at most 1 MiB, and not at all otherwise |
| `Agreement.ChatReachesTheRoom` | src/service/ChatService.cpp:29-43 | With disciplined clients a message 4001 that goes through is sent on as one 4002 to each member's session and to nobody else, adds one to the sender's score and changes nothing else but the sender's activity; the room is the one the request names |
| `Agreement.NotifiedOnce` | src/room/Room.cpp:28-34 | When no two players share a session, a broadcast reaches each listed player's session exactly once and no other session |
| `Agreement.ReconnectRestoresTheSeat` | src/service/ReconnectService.cpp:53-94 | With disciplined clients a message 9101 brings a player back if and only if they were Offline and it presents their own token; then only their own state and mark change and their session is watched, their seat and everybody else's stay |
| `Identities.LoginIsFresh` | src/service/LoginService.cpp:61-90 | With disciplined clients, the complete effect of a message 1001: a name gets an id that no table, room, session or queue knows, registered with score 0 and no room, and one 1002 with the id and its token, to that session alone; an empty name only gets a 1002 with the refusal |
| `Identities.TokenNamesThePlayer` | src/service/LoginService.cpp:93-95 | Two players have the same token if and only if they are the same player, for all ids including negative ones |
| `Identities.TokenSpellsTheId` | src/service/LoginService.cpp:93-95 | The token of a player is `token_` and the id in decimal without leading zeros; the first is `token_10000` |
| `Identities.ReconnectIsAnswered` | src/service/ReconnectService.cpp:25-94 | With disciplined clients every message 9101 gets exactly one 9102, to the asking session alone: success with the remembered room, or the first of the three refusals that applies, each stated in terms of the tables rather than of the guard's fields |
| `Discipline.StepAgreed` | src/GameServer.cpp:62-172 | Every event of disciplined clients that does not end the process keeps the agreement of all tables (sessions, player map, watched set, presence, seats, queue, tokens) |
| `Discipline.ReachedAgreed` | src/GameServer.cpp:62-172 | So the agreement holds in every world disciplined clients can reach |
| `Discipline.MatchAgreed` | src/service/MatchService.cpp:17-50 | A player's own match request, made while in no room, never fails and keeps the agreement; queue and rooms stay disjoint |
| `Discipline.ReconnectAgreed` | src/service/ReconnectService.cpp:53-94 | A reconnect of a fresh session keeps the agreement: no second open session for the player, marks and presence move together |
| `Discipline.ClosedAgreed` | src/GameServer.cpp:111-124 | A close never fails and keeps the agreement |
| `Soundness.StepSound` | src/GameServer.cpp:62-172 | Whatever the clients do, closes and both sweeps never end the process, and every event keeps: the map leads only to existing rooms that list the player, no room is empty or lists a player twice, all ids are below the next id, fewer than two players wait, remembered rooms are current |
| `Soundness.ReachedSound` | src/GameServer.cpp:62-172 | So this holds in every reachable world |
| `Soundness.RemovedOk` | src/room/RoomManager.cpp:11-27 | Removing a player never meets a missing room |
| `Soundness.MarkedInOk` | src/room/RoomManager.cpp:126-138 | Neither connection mark ever meets a missing room |
| `RoomHistory.RoomIdsAreNotReused` | src/room/RoomManager.cpp:30-32 | In every run, whatever the clients do, a room id that has been handed out and whose room is gone never names a room again |
| `RoomHistory.NoStraySeatIff` | src/room/RoomManager.cpp:96-98 | In every run, whatever the clients do, every member of a room is mapped to that room if and only if no event of the run matched a player who already had a seat |
| `RoomHistory.StepStrayIff` | src/room/RoomManager.cpp:89-98 | Event by event: the first seat the map does not lead to arises exactly when a match goes through for a player who is already mapped, and once there is one no event of any client makes the table whole again |
| `RoomHistory.RoomsComeToNothingIff` | src/GameServer.cpp:161-172 | Once every mapped player has expired, the sweep empties all rooms if and only if the run had no such match |
| `RoomHistory.RematchLeaksARoom` | src/room/RoomManager.cpp:89-98 | The room opened by such a match exists in every continuation of the run, whatever happens |
| `Scores.ScoreCountsChats` | src/service/ChatService.cpp:36-41 | In every run, whatever the clients do, each registered player's score is the number of chats handled from that player: logins, room openings, closes and sweeps neither lose nor reset a score |
| `Scores.StepScores` | src/service/RankingService.cpp:11-16 | One event moves the scores by its chats alone; new players start from zero and nobody is forgotten |
| `Counterexamples.TwoStrangersMatched` | src/service/MatchService.cpp:30-40 | Two match requests on one connection that never logged in, for two players nobody serves, end the process |
| `Counterexamples.MatchWithAGonePlayer` | src/player/PlayerManager.cpp:8-11 | A run in which the player map lists both players of a match and the process still ends, because one session has been destroyed |
| `Counterexamples.LoginAfterClose` | src/service/LoginService.cpp:73-76 | A run in which a login handled after its connection has closed leaves the closed session watched |
| `Counterexamples.ForgottenRoom` | src/player/PlayerStateManager.cpp:43-51 | A run of disciplined clients after which -1 is remembered for a player who sits in a room, as the theorem on remembered rooms says it must be |
| `Counterexamples.RematchHappens` | src/service/MatchService.cpp:21-40 | A run in which a player in a room is matched again |
| `Counterexamples.ChatToAnAbsentMember` | src/player/PlayerManager.cpp:8-11 | A reachable run of disciplined clients in which a chat to a room with an absent member ends the process |
| `Framing.CuttingIsIrrelevant` | src/net/Session.cpp:24-53 | However a byte stream is cut into reads, appending each read and running the parse loop yields the same messages and the same leftover as one single read |
| `Framing.ParseIsTheOnlyReading` | src/net/MessageCodec.cpp:54-70 | The loop's messages and leftover are the one and only way to read the bytes as complete frames followed by an incomplete one, so nothing is lost, invented or left undispatched |
| `Framing.ParseLosesNothing` | src/net/Session.cpp:34-53 | All bytes are the frames of the dispatched messages followed by the leftover, which holds no complete frame |
| `Framing.ParseResumes` | src/net/Session.cpp:24-53 | Parsing resumes where it stopped: more bytes only continue the earlier result |
| `Framing.EndToEnd` | src/net/Session.cpp:55-112 | For any messages given to send and any cutting of the resulting stream, the peer dispatches exactly those whose body is at most 1,048,576 bytes, in order, once each, with nothing left over |
| `Framing.EndToEndPrefix` | client/ClientSimulator.cpp:153-183 | While part of the stream is still under way, the peer has dispatched a prefix of the same messages |
| `Framing.PacketsAreFrames` | src/net/MessageCodec.cpp:38-52 | The queued packets are the frames of the messages that fit; an oversized message contributes no byte |
| `WritePump.PumpInvariant` | src/net/Session.cpp:55-112 | Over every run of sends, completions, errors and closes: never two writes in flight; while open, one exactly when something is queued; completed packets followed by queued ones are the packets sent, in order; no completion pops an empty queue. What happens once closed is the next row |
| `WritePump.ClosedForGood` | src/net/Session.cpp:55-71 | Once a session is closed, in every continuation of sends, completions, errors and closes it stays closed, no write is ever started, and the peer gets at most one more packet: the one whose write was under way |
| `WritePump.PumpOkDelivers` | src/net/Session.cpp:55-112 | From any state of a session that meets the invariant: however the completed packets are cut, the peer has dispatched a prefix of the sent messages that fit, and all of them if the queue is empty |
| `WritePump.PumpDelivers` | src/net/Session.cpp:55-112 | So over every run of sends, completions, errors and closes the peer has dispatched a prefix of the sent messages that fit, and all of them once the queue has drained |
| `MessageCodec.NumbersRoundTrip` | src/net/MessageCodec.cpp:11-32 | Reading back a written number gives the number, and writing back a read one gives the bytes, little-endian, for all 16- and 32-bit values |
| `MessageCodec.FrameLayout` | src/net/MessageCodec.cpp:11-52 | A frame byte by byte: four bytes of body length and two of id, least significant first, then the body; the packet is that frame up to 1,048,576 bytes of body and empty above; a 1001 without a body is 00 00 00 00 e9 03 |
| `MessageCodec.DecodeFrame` | src/net/MessageCodec.cpp:54-70 | Decoding a frame followed by anything gives the framed message and stops at the end of the frame |
| `MessageCodec.FrameDecoded` | src/net/MessageCodec.cpp:54-70 | The bytes a decode removes are the frame of the message it returns |
| `MessageCodec.WriteUint16` | src/net/MessageCodec.cpp:22-25 | Writes the two little-endian bytes at the offset and nothing else |
| `MessageCodec.WriteUint32` | src/net/MessageCodec.cpp:27-32 | Writes the four little-endian bytes at the offset and nothing else |
| `MessageCodec.Encode` | src/net/MessageCodec.cpp:38-52 | The packet is the frame of a message of at most 1,048,576 bytes of body, and empty exactly for a larger one |
| `MessageCodec.TryDecode` | src/net/MessageCodec.cpp:54-70 | Success exactly if a whole frame is there; then buffer = frame + rest; otherwise nothing is consumed; never Error, no size limit |
| `ReadTimes.CuttingLeavesTheSameServer` | src/net/Session.cpp:24-53 | However a client's bytes are cut into reads, and at whatever time each read happens, the process ends in both cases or in neither, the leftover is the same, and so is the whole server except for when that client was last heard from and the server times inside the answers to its heartbeats |
| `ReadTimes.CuttingAtOneInstant` | src/net/Session.cpp:24-53 | Reads at one instant leave exactly the same server |
| `ReadTimes.HandleAlike` | src/net/Session.cpp:34-53 | Whatever the message, handling it at another time makes no other difference than those two |
| `ServerStreams.ReadIsARun` | src/net/Session.cpp:34-53 | The messages of one read are a run of one event per message, so everything proved of runs holds of the parse loop |
| `ServerStreams.FaultEndsTheRead` | src/net/Session.cpp:34-53 | Once a handler has thrown, the rest of the buffer makes no difference |
| `MatchQueues.QueueIsFifo` | src/match/MatchQueue.cpp:11-51 | Over every run of guarded joins, leaves and pops of any group size the set is the set of the deque without duplicates, and the players matched so far followed by those waiting are the joins in order without those cancelled by a leave |
| `MatchQueues.PopOk` | src/match/MatchQueue.cpp:38-51 | A pop splits the line at the front: popped + remaining = before, and the set follows |
| `MatchQueues.LeaveOk` | src/match/MatchQueue.cpp:20-32 | A leave removes the player altogether and nobody else |
| `MatchQueues.MatchQueue.Leave` | src/match/MatchQueue.cpp:20-32 | The erasing loop computes the queue without the player |
| `MatchQueues.MatchQueue.TryPopMatchedPlayers` | src/match/MatchQueue.cpp:38-51 | The popping loop returns the first roomSize players, or none and no change if fewer wait |
| `Ranking.Rank` | src/service/RankingService.cpp:34-49 | For every repository and every top_n, negative ones included: max(0, min(top_n, n)) items, distinct players with their stored scores, non-increasing, and nobody omitted outscores anybody listed |
| `Ranking.SortedPrefixIsTopN` | src/service/RankingService.cpp:34-49 | Any rearrangement of all players in descending order of score, cut at top_n, is a right answer, so the order of ties does not matter |
| `Ranking.SortByScore` | src/service/RankingService.cpp:37-39 | Sorts the copy in place: descending and a permutation |
| `Rooms.Room.constructor` | src/room/Room.cpp:13-22 | Lists the players and gives each an Online state with this room's id, the first entry of a repeated id winning |
| `Rooms.Room.RemovePlayer` | src/room/Room.cpp:90-97 | Erases the first occurrence, keeps the order and the states |
| `Rooms.Room.MarkPlayer` | src/room/Room.cpp:123-133 | Both connection marks: only a player with a state is marked |
| `Rooms.Room.Broadcast` | src/room/Room.cpp:28-34 | Sends to each member in order; ends the process at the first member whose session cannot be found |
| `Rooms.Notify` | src/room/RoomManager.cpp:109-112 | The sending loop computes the notification function, or reports the lookup that throws |
| `Rooms.RoomManager.CreateRoom` | src/room/RoomManager.cpp:89-124 | New id, room, map entries that never overwrite, notice to each player, then the room id in the record of each listed player who is registered and nothing else of any record; on a failing lookup every record is as it was |
| `Rooms.RoomManager.RemovePlayer` | src/room/RoomManager.cpp:11-27 | Removes the player from their own room and the map, and the room with its last member; false exactly if the map leads to no room |
| `Rooms.RoomManager.MarkPlayer` | src/room/RoomManager.cpp:126-138 | Marks the player in their own room only; false exactly if the map leads to no room |
| `Rooms.RoomManager.RemoveRoom` | src/room/RoomManager.cpp:62-72 | Erases the room and exactly the map entries that lead to it |
| `Rooms.RoomManager.RecordRoom` | src/room/RoomManager.cpp:114-121 | The load-change-save loop: the same players are registered, each listed one's record has the new room id and is otherwise as it was, and every other record is as it was |
| `PlayerStates.PlayerStateManager.SaveOnline` | src/player/PlayerStateManager.cpp:43-51 | Stores an Online state only for a player without one |
| `PlayerStates.PlayerStateManager.MarkDisconnected` | src/player/PlayerStateManager.cpp:36-41 | Marks an existing state Offline as of now |
| `PlayerStates.PlayerStateManager.GetReconnectTimeoutPlayers` | src/player/PlayerStateManager.cpp:15-27 | Lists, in some order, each Offline player whose disconnection is at least timeout + 1 s old, exactly once |
| `Repository.MemoryPlayerStateRepository.GetAllPlayers` | src/player/MemoryPlayerStateRepository.cpp:33-41 | Copies every state exactly once, in some order |
| `Connections.PlayerManager.GetSession` | src/player/PlayerManager.cpp:8-11 | The mapped session while it exists; none stands for the exception on an absent player and for the null pointer an expired entry gives |
| `Connections.ConnectionManager.CollectStale` | src/net/ConnectionManager.cpp:8-14 | Collects, in some order, exactly the watched sessions silent for at least timeout + 1 s, each once |
| `ServerModel.NotifiedKeepsSessions` | src/room/Room.cpp:28-34 | A broadcast goes through if and only if every listed player has a session that can be found, and it never opens, closes or rebinds one |
| `Sessions.Session.constructor` | src/net/Session.cpp:74-101 | An open session bound to nobody, with nothing queued |
| `Sessions.Session.Send` | src/net/Session.cpp:103-112 | Queues the packet behind the others; afterwards one write is in flight if the session is open, and as many as before if it is closed; keeps the pump invariant |
| `Sessions.Session.OnWritten` | src/net/Session.cpp:66-71 | Pops exactly the written packet; the next write starts if something is left and the session is open, and none does on a closed session; keeps the pump invariant |
| `Sessions.Session.OnWriteError` | src/net/Session.cpp:61-65 | Ends the write and closes |
| `Sessions.Session.Close` | src/net/Session.cpp:80-95 | Closes once: the callback is due only the first time |
| `Sessions.Session.IsStale` | src/net/Session.cpp:131-138 | Stale if and only if silent for at least timeout + 1 s |
| `GameServers.GameServer.constructor` | src/GameServer.cpp:13-31 | All tables empty, ids from 10000 |
| `GameServers.GameServer.HandleLogin` | src/service/LoginService.cpp:61-90 | The object code does to the real tables exactly what the login step of the runs does to the model; the session is sent one message, with id 1002 and the serialized answer |
| `GameServers.GameServer.HandleMatch` | src/service/MatchService.cpp:17-50 | The same for a match request, including the failing lookup; the first message the session is sent has id 2002 and is the serialized acknowledgement, or the refusal with the reason that applies |
| `GameServers.GameServer.CreateRoom` | src/room/RoomManager.cpp:89-124 | Opening a room, seen on the whole server: rooms, mail and repository change together |
| `GameServers.GameServer.HandleChat` | src/service/ChatService.cpp:29-43 | The same for a chat: score first, then the named room |
| `GameServers.GameServer.AddScoreTo` | src/service/RankingService.cpp:11-16 | Load, add, store: one registered player's score moves, nothing else |
| `GameServers.GameServer.HandleHeartbeat` | src/service/HeartbeatService.cpp:19-46 | The same for a heartbeat |
| `GameServers.GameServer.HandleReconnect` | src/service/ReconnectService.cpp:53-94 | The same for a reconnect: three guards in order, then the five updates |
| `GameServers.GameServer.HandleRanking` | src/service/RankingService.cpp:30-56 | Answers with a right top-N of the repository as it is |
| `GameServers.GameServer.Dispatch` | src/net/MessageDispatcher.cpp:13-21 | The handler registered for the message id runs on the objects as the step of the model does; nothing runs and nothing changes for an id other than 1001, 2001, 4001, 5001, 9001 and 9101 |
| `GameServers.GameServer.OnRead` | src/net/Session.cpp:24-53 | Appending a read and running the parse loop on the objects handles exactly the messages of the pure parse, in order, each with the activity stamp first, and stores exactly its leftover; a throwing handler ends it |
| `GameServers.GameServer.ParseNext` | src/net/Session.cpp:34-50 | One turn of the loop: the first frame is removed and its message handled, or nothing happens |
| `GameServers.GameServer.ClientDispatches` | src/net/Session.cpp:55-112 | For every session of a running server and any cutting of what has been written to it, the client has dispatched a prefix of the fitting messages the server sent it, and all of them once the queue is empty |
| `GameServers.GameServer.OnDestroyed` | src/player/PlayerManager.cpp:8-11 | A destroyed session expires the weak pointers to it and changes nothing else |
| `GameServers.GameServer.Accept` | src/GameServer.cpp:103-130 | A new session object, open, bound to nobody, active now, watched by nobody |
| `GameServers.GameServer.OnClosed` | src/GameServer.cpp:111-124 | The close callback on the objects is the close step of the model |
| `GameServers.GameServer.CloseSession` | src/net/Session.cpp:80-95 | Closing runs the callback the first time only |
| `GameServers.GameServer.OnWritten` | src/net/Session.cpp:66-71 | A completed write changes only this session's write side |
| `GameServers.GameServer.OnWriteError` | src/net/Session.cpp:61-65 | A failed write ends that write, leaves the queue, and closes the session with all that follows |
| `GameServers.GameServer.CheckTimeout` | src/net/ConnectionManager.cpp:8-20 | Collect then close, on the objects, is the sweep of the model, in some order and each once, over exactly the watched sessions silent for at least 16,000,000,000 ns |
| `GameServers.GameServer.CheckReconnectTimeout` | src/GameServer.cpp:161-172 | The removal loop, on the objects, is the sweep of the model, in some order and each once, over exactly the players Offline for at least 31,000,000,000 ns |

## Left out

- Boost.Asio: sockets, acceptor and timers appear as events and as callers of the callbacks. Read errors and end of
  file are the close event; a failing accept, after which the server accepts nobody, is not modelled.
- Protobuf: how request bodies parse and replies serialize is a parameter (`Protocol.Proto`), any functions at all;
  every theorem holds for all of them.
- Partial writes: the completion handler ignores how much was written (src/net/Session.cpp:61-67), so each completion
  is taken to cover its packet.
- Threads, mutexes and atomics: there is one event loop (docs/architecture.md:569).
- Machine integers: player ids, room ids and scores are unbounded, sizes are those of a 64-bit build, and list lengths
  fit an `int`. The 16- and 32-bit header fields are modelled exactly.
- Clock readings: one event reads the steady clock once, so all messages of one read carry the same time
  (`ReadTimes.CuttingLeavesTheSameServer` says what the times can change), and the wall clock of a login is chosen by
  the environment.
- When a closed session is destroyed: at any moment after it has left the watched set, chosen by the environment,
  which stands for the end of its pending callbacks.
- The order of unordered containers: any order, chosen by the environment. The order of equal scores after sorting:
  any order; the in-place sort shown is one algorithm.
- MessageCodec.TryDecode: returns the shortened buffer instead of erasing from it in place; the optional error text
  is dropped.
- The services and the dispatcher are methods of the one server object instead of objects of their own; they have no
  state but the next player id.
- `RoomManager.remove_room` is modelled although nothing calls it. Plain lookups, insertions and erasures of the
  managers are modelled and proved without a row of their own above.
- `handle_cancel_match`, `Room::add_player`, `broadcast_except`, the repository's `mark_online` and `mark_offline`,
  `check_token` and `parse_username`: nothing calls or registers them.
- Room ticks, logging, metrics and their periodic report: they only count and print.
- The client simulator, apart from its parse loop as the receiver of the end-to-end theorems.

# MasterServerKit core, modelled in Dafny

MasterServerKit is a Unity networking kit with five kinds of component:

- **Master server.** It authenticates players against an account store, relays chat, and keeps a directory of game rooms. Players find, join, create or "play now" a room there.
- **Zone server.** It launches game-server processes on its machine, one per room, each on a port taken from a queue of free ports.
- **Game server.** One room. It registers with the master, reports its player count, and closes itself when empty.
- **Client add-ons.** They send requests to the master and run the callbacks stored for the answers.
- **Account store.** It keeps salted PBKDF2 password hashes and per-user properties.

Each core source file is modelled in the form it has in the source:

- **Objects that keep state** become classes. Their lists become `seq` fields that methods reassign. The zone's port queue is a `seq` whose head is index 0.
- **Pure checks** become functions, with lemmas about them.
- **Sends** are appended to an `outbox` field of the sending object, so "exactly one response" can be stated. A send is an `Envelope`: its destination (an accepted connection, or an address a fresh client connects to) and its message.
- **Asynchronous steps** (a connection that succeeds or fails, a message that arrives, a timer that fires) are separate event methods.
- **Outside inputs** are parameters: PBKDF2, Base64, the random salt, `Random.Range` and whether `Process.Start` succeeds.
- **C# integers** are unbounded, except the master's room counter. That counter wraps as a C# `int` does.
- **C# strings** that can be null are `Option<string>`.

Modules, one per file:

- `Common`, `Protocol`: errors, properties, players, connections, message records.
- `StringUtils`, `CryptoUtils`: IsNullOrWhitespace, and the salted password hash.
- `NoDBProvider`: the in-memory account store.
- `BaseServer`: the player list shared by every server.
- `AuthenticationServerAddon`, `ChatServerAddon`, `GameRoomsMasterServerAddon`: the master's add-ons.
- `ZoneServer`, `GameRoomsZoneServerAddon`: the zone server.
- `CommandLine`: the launch arguments a zone writes and a game server reads back.
- `GameServer`: one room.
- `ClientCallbacks`, `GameRoomsClientAddon`, `AuthenticationClientAddon`: the client side.

## Model

| member | source | states |
|---|---|---|
| StringUtils.Trim | unityproject/Assets/MasterServerKit/Core/Scripts/Utils/StringUtils.cs:19-22 | trimming leaves the empty string exactly when every character is white space |
| StringUtils.IsNullOrWhitespace | unityproject/Assets/MasterServerKit/Core/Scripts/Utils/StringUtils.cs:19-22 | true iff the string is null or every character is white space (so null and "" are true, and any non-white-space character makes it false) |
| CryptoUtils.CombinedSaltAndHash | unityproject/Assets/MasterServerKit/Core/Scripts/Utils/CryptoUtils.cs:37-54 | the stored blob is 36 bytes: the 16 salt bytes, then the 20-byte PBKDF2 hash of the password under that salt with 10000 iterations |
| CryptoUtils.CopyInto | unityproject/Assets/MasterServerKit/Core/Scripts/Utils/CryptoUtils.cs:49-50 | Array.Copy writes the source at the offset and leaves the rest of the array unchanged |
| CryptoUtils.GenerateCombinedSaltAndHash | unityproject/Assets/MasterServerKit/Core/Scripts/Utils/CryptoUtils.cs:37-54 | the stored string is the Base64 encoding of salt followed by hash |
| CryptoUtils.CheckPasswordsAreEqual | unityproject/Assets/MasterServerKit/Core/Scripts/Utils/CryptoUtils.cs:63-84 | the early-exit byte loop returns true iff the hash derived from the password and the stored salt equals the stored hash |
| CryptoUtils.StoredPasswordMatches | unityproject/Assets/MasterServerKit/Core/Scripts/Utils/CryptoUtils.cs:37-84 | round trip: the stored string decodes to the blob, and the password it was made from passes the check |
| CryptoUtils.OtherPasswordMatchesOnlyOnCollision | unityproject/Assets/MasterServerKit/Core/Scripts/Utils/CryptoUtils.cs:63-84 | another password passes the check iff PBKDF2 gives it the same hash under the same salt |
| CryptoUtils.DifferentSaltsGiveDifferentStoredPasswords | unityproject/Assets/MasterServerKit/Core/Scripts/Utils/CryptoUtils.cs:37-54 | the same password stored under two different salts gives two different stored strings |
| NoDBProvider.IndexOfUser | unityproject/Assets/MasterServerKit/Core/Scripts/Database/NoDBProvider.cs:106 | List.Find by name: the first user with that name, or none iff no user has it |
| NoDBProvider.RegisterOutcome | unityproject/Assets/MasterServerKit/Core/Scripts/Database/NoDBProvider.cs:39-82 | each error holds iff its check is the first to fail, in the order email, username, password, email taken, name taken; success returns the username; a database error never happens |
| NoDBProvider.LoginOutcome | unityproject/Assets/MasterServerKit/Core/Scripts/Database/NoDBProvider.cs:92-121 | MissingUsername, MissingPassword and NonexistingUser each hold iff their check is the first to fail; success iff the stored hash matches; success returns the username |
| NoDBProvider.GetIntOutcome | unityproject/Assets/MasterServerKit/Core/Scripts/Database/NoDBProvider.cs:131-147 | "user does not exist" iff the name is unknown; success iff the key is in the user's int dictionary, and then with its value |
| NoDBProvider.GetStringOutcome | unityproject/Assets/MasterServerKit/Core/Scripts/Database/NoDBProvider.cs:187-203 | the same for the string dictionary |
| NoDBProvider.WithIntProperty | unityproject/Assets/MasterServerKit/Core/Scripts/Database/NoDBProvider.cs:158-177 | the number of users is unchanged, and an unknown user changes nothing |
| NoDBProvider.WithStringProperty | unityproject/Assets/MasterServerKit/Core/Scripts/Database/NoDBProvider.cs:214-233 | the same for the string dictionary, whose values may be null as in the C# dictionary |
| NoDBProvider.RegisterKeepsAccountsUnique | unityproject/Assets/MasterServerKit/Core/Scripts/Database/NoDBProvider.cs:59-79 | a successful registration keeps every email and every name unique |
| NoDBProvider.SetThenGetInt | unityproject/Assets/MasterServerKit/Core/Scripts/Database/NoDBProvider.cs:131-177 | after setting an int property of a known user, reading it gives the value set |
| NoDBProvider.SetIntTwiceKeepsLast | unityproject/Assets/MasterServerKit/Core/Scripts/Database/NoDBProvider.cs:158-177 | setting the same key twice equals setting it once to the last value (add or overwrite) |
| NoDBProvider.SetThenGetString | unityproject/Assets/MasterServerKit/Core/Scripts/Database/NoDBProvider.cs:187-233 | after setting a string property of a known user, reading it gives the value set |
| NoDBProvider.IntAndStringPropertiesIndependent | unityproject/Assets/MasterServerKit/Core/Scripts/Database/NoDBProvider.cs:158-233 | setting an int property changes no string-property read, and the other way round |
| NoDBProvider.SetIntKeepsOtherIntReads | unityproject/Assets/MasterServerKit/Core/Scripts/Database/NoDBProvider.cs:131-177 | setting an int property leaves the int read of every other (user, key) pair as it was |
| NoDBProvider.SetStringKeepsOtherStringReads | unityproject/Assets/MasterServerKit/Core/Scripts/Database/NoDBProvider.cs:187-233 | setting a string property leaves the string read of every other (user, key) pair as it was |
| NoDBProvider.SetIntOtherKeyKeepsFirst | unityproject/Assets/MasterServerKit/Core/Scripts/Database/NoDBProvider.cs:131-177 | after writing one key and then another key of the same user, the first key still reads the first value |
| NoDBProvider.NoDBProvider.constructor | unityproject/Assets/MasterServerKit/Core/Scripts/Database/NoDBProvider.cs:21-28 | the store starts empty |
| NoDBProvider.NoDBProvider.Register | unityproject/Assets/MasterServerKit/Core/Scripts/Database/NoDBProvider.cs:39-82 | returns RegisterOutcome; a failure changes nothing; a success appends exactly one user with the salted-hash password and empty dictionaries; accounts stay unique |
| NoDBProvider.NoDBProvider.Login | unityproject/Assets/MasterServerKit/Core/Scripts/Database/NoDBProvider.cs:92-121 | returns LoginOutcome and changes nothing |
| NoDBProvider.NoDBProvider.GetIntProperty | unityproject/Assets/MasterServerKit/Core/Scripts/Database/NoDBProvider.cs:131-147 | returns GetIntOutcome |
| NoDBProvider.NoDBProvider.SetIntProperty | unityproject/Assets/MasterServerKit/Core/Scripts/Database/NoDBProvider.cs:158-177 | an unknown user fails with "user does not exist" and changes nothing; otherwise the new value is echoed and the store becomes WithIntProperty |
| NoDBProvider.NoDBProvider.GetStringProperty | unityproject/Assets/MasterServerKit/Core/Scripts/Database/NoDBProvider.cs:187-203 | returns GetStringOutcome |
| NoDBProvider.NoDBProvider.SetStringProperty | unityproject/Assets/MasterServerKit/Core/Scripts/Database/NoDBProvider.cs:214-233 | the same as SetIntProperty, for strings |
| BaseServer.IndexOfConnection | unityproject/Assets/MasterServerKit/Core/Scripts/Server/BaseServer.cs:86 | Find by connection: the first player on that connection, or none iff no player has it |
| BaseServer.IndexOfName | unityproject/Assets/MasterServerKit/Core/Scripts/Server/ChatServerAddon.cs:68 | Find by name: the first player with that name, or none iff no player has it |
| BaseServer.RemovingFoundPlayerClearsConnection | unityproject/Assets/MasterServerKit/Core/Scripts/Server/BaseServer.cs:98-105 | with unique connections, removing the found player leaves nobody on that connection and keeps connections unique |
| BaseServer.BaseServer.AddPlayer | unityproject/Assets/MasterServerKit/Core/Scripts/Server/BaseServer.cs:84-92 | a known connection changes nothing; otherwise exactly one player is appended; connections stay unique |
| BaseServer.BaseServer.RemovePlayer | unityproject/Assets/MasterServerKit/Core/Scripts/Server/BaseServer.cs:98-105 | removes the first player on the connection and keeps the rest in order; does nothing when there is none |
| BaseServer.BaseServer.OnPlayerInfoReceived | unityproject/Assets/MasterServerKit/Core/Scripts/Server/BaseServer.cs:62-77 | renames the player of a known connection and nobody else; adds a player for an unknown connection |
| BaseServer.BaseServer.NotifyAddonsOfDisconnect | unityproject/Assets/MasterServerKit/Core/Scripts/Server/BaseServer.cs:47-55 | every add-on is notified once, in order, of the connection |
| BaseServer.BaseServer.OnDisconnected | unityproject/Assets/MasterServerKit/Core/Scripts/Server/BaseServer.cs:45-56 | the player is removed first, then every add-on is notified |
| AuthenticationServerAddon.IsJoinAllowed | unityproject/Assets/MasterServerKit/Core/Scripts/Server/AuthenticationServerAddon.cs:87-123 | checks in order: an already-connected name is UserAlreadyLoggedIn (even on a full server), then ServerFull, then a guest without guest login is AuthenticationRequired; success iff none applies; no username |
| AuthenticationServerAddon.GuestsSkipDuplicateNameCheck | unityproject/Assets/MasterServerKit/Core/Scripts/Server/AuthenticationServerAddon.cs:92 | a guest is accepted whatever name it sends, when guests are allowed and the server is not full |
| AuthenticationServerAddon.RegistrationResponse | unityproject/Assets/MasterServerKit/Core/Scripts/Server/AuthenticationServerAddon.cs:129-147 | success iff the store registered the account; otherwise it carries the store's error |
| AuthenticationServerAddon.AuthenticationServerAddon.OnPlayerLoginRequested | unityproject/Assets/MasterServerKit/Core/Scripts/Server/AuthenticationServerAddon.cs:40-80 | exactly one response. A refusal is sent as is and adds nobody. An accepted guest is appended under the guest name. A named login is appended only when the store accepts, and a store error is forwarded |
| AuthenticationServerAddon.AuthenticationServerAddon.OnPlayerRegistrationRequested | unityproject/Assets/MasterServerKit/Core/Scripts/Server/AuthenticationServerAddon.cs:129-147 | exactly one response built from the store's outcome; a failure leaves the store unchanged and a success adds one account |
| ChatServerAddon.StampedSender | unityproject/Assets/MasterServerKit/Core/Scripts/Server/ChatServerAddon.cs:43-47 | the sender field is the name of the first player on the sending connection (the one Find returns), or the received value when that connection has no player |
| ChatServerAddon.PrivateRecipients | unityproject/Assets/MasterServerKit/Core/Scripts/Server/ChatServerAddon.cs:61-72 | the first player on the sending connection, if any, comes first; then the first player with the recipient's name, if any (so of two guests sharing a name, only the earlier one); nobody else, and all of them are connected players |
| ChatServerAddon.UnknownRecipientGetsOnlyEcho | unityproject/Assets/MasterServerKit/Core/Scripts/Server/ChatServerAddon.cs:61-72 | an unknown recipient leaves only the sender's echo |
| ChatServerAddon.MessageToSelfDeliveredTwice | unityproject/Assets/MasterServerKit/Core/Scripts/Server/ChatServerAddon.cs:61-72 | a private message to one's own name is delivered to the sender twice |
| ChatServerAddon.Deliveries | unityproject/Assets/MasterServerKit/Core/Scripts/Server/ChatServerAddon.cs:73-76 | one send per recipient, in order, of the same message |
| ChatServerAddon.ChatServerAddon.SendToEach | unityproject/Assets/MasterServerKit/Core/Scripts/Server/ChatServerAddon.cs:73-76 | the foreach appends exactly Deliveries |
| ChatServerAddon.ChatServerAddon.OnReceivedPublicChatText | unityproject/Assets/MasterServerKit/Core/Scripts/Server/ChatServerAddon.cs:40-52 | one send to every connected player in list order, with the sender stamped and channel and text unchanged |
| ChatServerAddon.ChatServerAddon.OnReceivedPrivateChatText | unityproject/Assets/MasterServerKit/Core/Scripts/Server/ChatServerAddon.cs:58-77 | one send to each of PrivateRecipients, with the sender stamped |
| GameRoomsMasterServerAddon.Int32Succ | unityproject/Assets/MasterServerKit/Core/Scripts/Server/GameRoomsMasterServerAddon.cs:502 | `gameServerId++` stays a C# int: it adds one below Int32Max and wraps to Int32Min at Int32Max |
| GameRoomsMasterServerAddon.IndexOfZoneServer | unityproject/Assets/MasterServerKit/Core/Scripts/Server/GameRoomsMasterServerAddon.cs:454 | Find by connection identity: the first zone on that connection, or none iff none has it |
| GameRoomsMasterServerAddon.IndexOfGameServer | unityproject/Assets/MasterServerKit/Core/Scripts/Server/GameRoomsMasterServerAddon.cs:520 | Find by connection identity over the rooms |
| GameRoomsMasterServerAddon.IndexOfGameServerId | unityproject/Assets/MasterServerKit/Core/Scripts/Server/GameRoomsMasterServerAddon.cs:249 | Find by room id |
| GameRoomsMasterServerAddon.IndexOfConnectionId | unityproject/Assets/MasterServerKit/Core/Scripts/Server/GameRoomsMasterServerAddon.cs:337 | Find over the waiting players by the integer connectionId, not by identity |
| GameRoomsMasterServerAddon.IndexOfOpenPublicGame | unityproject/Assets/MasterServerKit/Core/Scripts/Server/GameRoomsMasterServerAddon.cs:295 | the first room with an empty password and numPlayers < maxPlayers, or none iff there is none |
| GameRoomsMasterServerAddon.ServerIsHiddenFromMatchmaking | unityproject/Assets/MasterServerKit/Core/Scripts/Server/GameRoomsMasterServerAddon.cs:186-189 | a room with a free slot is never hidden, nor is one that did not ask to be hidden when full; one that asked is hidden as soon as it has at least maxPlayers players, so an exactly full room is hidden |
| GameRoomsMasterServerAddon.ToNetwork | unityproject/Assets/MasterServerKit/Core/Scripts/Server/GameRoomsMasterServerAddon.cs:163-171 | the listed room copies id, address, name, counts and properties, and is private iff its password is neither null nor empty |
| GameRoomsMasterServerAddon.Listing | unityproject/Assets/MasterServerKit/Core/Scripts/Server/GameRoomsMasterServerAddon.cs:157-174 | every listed game is a registered room that is not hidden when full, has every include property and none of the exclude properties; every such room is listed |
| GameRoomsMasterServerAddon.ListingOfConcatenation | unityproject/Assets/MasterServerKit/Core/Scripts/Server/GameRoomsMasterServerAddon.cs:157-174 | rooms are listed in registration order: the listing of a + b is the listing of a followed by that of b |
| GameRoomsMasterServerAddon.JoinResponse | unityproject/Assets/MasterServerKit/Core/Scripts/Server/GameRoomsMasterServerAddon.cs:244-284 | an unknown id is GameExpired with no address. Success iff (no password or the right one) and numPlayers != maxPlayers. An exactly full room is GameFull even with a wrong password; InvalidPassword otherwise. Only a success carries ip and port |
| GameRoomsMasterServerAddon.OverfullRoomStillJoinable | unityproject/Assets/MasterServerKit/Core/Scripts/Server/GameRoomsMasterServerAddon.cs:186-189 | fullness for joining is exact equality: a public room with more players than its maximum accepts a join, although find hides it when hideWhenFull is set |
| GameRoomsMasterServerAddon.Answer | unityproject/Assets/MasterServerKit/Core/Scripts/Server/GameRoomsMasterServerAddon.cs:554-563 | the first waiting player with that connectionId is sent the response and stops waiting; with none, nothing happens |
| GameRoomsMasterServerAddon.ResolveSpawnResponse | unityproject/Assets/MasterServerKit/Core/Scripts/Server/GameRoomsMasterServerAddon.cs:333-345 | a failed spawn answers the waiting player the response names with a failure; a success sends nothing |
| GameRoomsMasterServerAddon.ResolveReady | unityproject/Assets/MasterServerKit/Core/Scripts/Server/GameRoomsMasterServerAddon.cs:549-565 | a ready notification answers the player it names with a success carrying the room's address |
| GameRoomsMasterServerAddon.ReadyAnswersOnce | unityproject/Assets/MasterServerKit/Core/Scripts/Server/GameRoomsMasterServerAddon.cs:549-565 | a waiting player is answered once: a repeated notification sends nothing |
| GameRoomsMasterServerAddon.NextIdIsFresh | unityproject/Assets/MasterServerKit/Core/Scripts/Server/GameRoomsMasterServerAddon.cs:502 | before the counter wraps, the next room id was never handed out, and ids stay strictly increasing |
| GameRoomsMasterServerAddon.GameRoomsMasterServerAddon.constructor | unityproject/Assets/MasterServerKit/Core/Scripts/Server/GameRoomsMasterServerAddon.cs:66-82 | empty lists and the counter at 0 |
| GameRoomsMasterServerAddon.GameRoomsMasterServerAddon.OnPingRequested | unityproject/Assets/MasterServerKit/Core/Scripts/Server/GameRoomsMasterServerAddon.cs:139-144 | one reply with the master's player count |
| GameRoomsMasterServerAddon.GameRoomsMasterServerAddon.ServerIncludesProperties | unityproject/Assets/MasterServerKit/Core/Scripts/Server/GameRoomsMasterServerAddon.cs:197-207 | true iff every filter property (name and value) is among the room's |
| GameRoomsMasterServerAddon.GameRoomsMasterServerAddon.ServerExcludesProperties | unityproject/Assets/MasterServerKit/Core/Scripts/Server/GameRoomsMasterServerAddon.cs:215-225 | true iff no filter property is among the room's |
| GameRoomsMasterServerAddon.GameRoomsMasterServerAddon.FindGames | unityproject/Assets/MasterServerKit/Core/Scripts/Server/GameRoomsMasterServerAddon.cs:157-174 | the foreach builds exactly Listing |
| GameRoomsMasterServerAddon.GameRoomsMasterServerAddon.OnFindGameRoomsRequested | unityproject/Assets/MasterServerKit/Core/Scripts/Server/GameRoomsMasterServerAddon.cs:150-179 | one response carrying Listing of the registered rooms |
| GameRoomsMasterServerAddon.GameRoomsMasterServerAddon.OnJoinGameRoomRequested | unityproject/Assets/MasterServerKit/Core/Scripts/Server/GameRoomsMasterServerAddon.cs:244-284 | one response, as JoinResponse decides |
| GameRoomsMasterServerAddon.GameRoomsMasterServerAddon.SelectZoneServer | unityproject/Assets/MasterServerKit/Core/Scripts/Server/GameRoomsMasterServerAddon.cs:365-376 | none iff no zone is registered; otherwise some registered zone |
| GameRoomsMasterServerAddon.GameRoomsMasterServerAddon.CreateGameRoom | unityproject/Assets/MasterServerKit/Core/Scripts/Server/GameRoomsMasterServerAddon.cs:321-359 | without zones, one ZoneServerUnavailable failure; otherwise a connection to a registered zone is pending and nothing is sent |
| GameRoomsMasterServerAddon.GameRoomsMasterServerAddon.OnZoneConnected | unityproject/Assets/MasterServerKit/Core/Scripts/Server/GameRoomsMasterServerAddon.cs:327-332 | the player starts waiting, and the request goes to the zone stamped with the player's connectionId |
| GameRoomsMasterServerAddon.GameRoomsMasterServerAddon.OnZoneConnectFailed | unityproject/Assets/MasterServerKit/Core/Scripts/Server/GameRoomsMasterServerAddon.cs:347-350 | the failure is only logged: the pending connection is dropped and the player is never answered |
| GameRoomsMasterServerAddon.GameRoomsMasterServerAddon.OnSpawnResponse | unityproject/Assets/MasterServerKit/Core/Scripts/Server/GameRoomsMasterServerAddon.cs:333-346 | the waiting list and the sends follow ResolveSpawnResponse |
| GameRoomsMasterServerAddon.GameRoomsMasterServerAddon.OnCreateGameRoomRequested | unityproject/Assets/MasterServerKit/Core/Scripts/Server/GameRoomsMasterServerAddon.cs:231-238 | as CreateGameRoom, for the requesting connection |
| GameRoomsMasterServerAddon.GameRoomsMasterServerAddon.OnPlayNowRequested | unityproject/Assets/MasterServerKit/Core/Scripts/Server/GameRoomsMasterServerAddon.cs:290-314 | the first open public room is answered as a successful join with its address; without one, a room "Default game" for 4 players with no password is created for the player |
| GameRoomsMasterServerAddon.GameRoomsMasterServerAddon.RegisterZoneServer | unityproject/Assets/MasterServerKit/Core/Scripts/Server/GameRoomsMasterServerAddon.cs:441-446 | appends the zone |
| GameRoomsMasterServerAddon.GameRoomsMasterServerAddon.UnregisterZoneServer | unityproject/Assets/MasterServerKit/Core/Scripts/Server/GameRoomsMasterServerAddon.cs:452-460 | removes the first zone on that connection; does nothing when there is none |
| GameRoomsMasterServerAddon.GameRoomsMasterServerAddon.RegisterGameServer | unityproject/Assets/MasterServerKit/Core/Scripts/Server/GameRoomsMasterServerAddon.cs:498-512 | appends a room with the counter's id, 0 players, and the message's fields; the counter advances with wrap-around, and registration goes on after the wrap; the issued-id history gains exactly the id handed out; while the id history is increasing and the counter has not reached Int32Max, the id is fresh |
| GameRoomsMasterServerAddon.GameRoomsMasterServerAddon.UnregisterGameServer | unityproject/Assets/MasterServerKit/Core/Scripts/Server/GameRoomsMasterServerAddon.cs:518-526 | removes the first room on that connection; does nothing when there is none |
| GameRoomsMasterServerAddon.GameRoomsMasterServerAddon.OnGameServerUnregistered | unityproject/Assets/MasterServerKit/Core/Scripts/Server/GameRoomsMasterServerAddon.cs:483-491 | unregisters, then acknowledges once |
| GameRoomsMasterServerAddon.GameRoomsMasterServerAddon.OnDisconnectedFromBaseServer | unityproject/Assets/MasterServerKit/Core/Scripts/Server/GameRoomsMasterServerAddon.cs:129-133 | the connection's zone and its room, if any, are unregistered |
| GameRoomsMasterServerAddon.GameRoomsMasterServerAddon.OnGameServerStateUpdated | unityproject/Assets/MasterServerKit/Core/Scripts/Server/GameRoomsMasterServerAddon.cs:532-543 | the first room on that connection takes the reported count; nothing else changes |
| GameRoomsMasterServerAddon.GameRoomsMasterServerAddon.OnNotifiedGameServerReady | unityproject/Assets/MasterServerKit/Core/Scripts/Server/GameRoomsMasterServerAddon.cs:549-565 | the waiting list and the sends follow ResolveReady |
| ZoneServer.PortRange | unityproject/Assets/MasterServerKit/Core/Scripts/Server/ZoneServer/ZoneServer.cs:107-110 | the ports the zone enqueues at start-up are base + 1 to base + count, in order |
| ZoneServer.PortRangeAscending | unityproject/Assets/MasterServerKit/Core/Scripts/Server/ZoneServer/ZoneServer.cs:102-111 | the initial pool is strictly increasing (so it has no duplicates) and does not contain the zone's own port |
| ZoneServer.ZoneServer.RegistrationRequest | unityproject/Assets/MasterServerKit/Core/Scripts/Server/ZoneServer/ZoneServer.cs:178-191 | the request sent to a new game server carries the player's connection id and the zone's own address |
| ZoneServer.ZoneServer.Awake | unityproject/Assets/MasterServerKit/Core/Scripts/Server/ZoneServer/ZoneServer.cs:102-111 | appends PortRange(zoneServerPort, maxGameServers) to the queue |
| ZoneServer.ZoneServer.SpawnGameServer | unityproject/Assets/MasterServerKit/Core/Scripts/Server/ZoneServer/ZoneServer.cs:157-201 | An empty queue throws and changes nothing. Otherwise the head port leaves the pool (as a multiset, the pool loses exactly that port) and is not returned if the launch fails. The binary is launched with LaunchArguments. A started process yields a record with the zone's ip, that port and the request's fields, and its registration request is sent |
| ZoneServer.ZoneServer.DestroyGameServer | unityproject/Assets/MasterServerKit/Core/Scripts/Server/ZoneServer/ZoneServer.cs:207-210 | the port goes back to the tail of the queue with no duplicate check: the pool gains exactly that port, so a port returned twice is in it twice |
| ZoneServer.ZoneServer.Start | unityproject/Assets/MasterServerKit/Core/Scripts/Server/ZoneServer/ZoneServer.cs:116-137 | the zone's registration is sent first; then up to numPreSpawnedGameServers spawns for player -1 with the defaults take ports from the head of the queue, stopping when the queue runs out |
| GameRoomsZoneServerAddon.SpawnResponse | unityproject/Assets/MasterServerKit/Core/Scripts/Server/GameRoomsZoneServerAddon.cs:89-103 | as written: success iff a room was spawned, carrying its address; playerConnectionId is always 0 |
| GameRoomsZoneServerAddon.IntendedSpawnResponse | unityproject/Assets/MasterServerKit/Core/Scripts/Server/GameRoomsZoneServerAddon.cs:89-103 | corrected: the response carries the request's playerConnectionId |
| GameRoomsZoneServerAddon.FailedSpawnLeavesPlayerWaiting | unityproject/Assets/MasterServerKit/Core/Scripts/Server/GameRoomsZoneServerAddon.cs:89-103 | as written, a failed spawn answers no waiting player whose connectionId is not 0 and removes nobody from the waiting list |
| GameRoomsZoneServerAddon.FailedSpawnExample | unityproject/Assets/MasterServerKit/Core/Scripts/Server/GameRoomsZoneServerAddon.cs:89-103 | the player on connectionId 1 stays waiting, unanswered, under the response as written, and is answered under the corrected one |
| GameRoomsZoneServerAddon.IntendedFailedSpawnAnswersRequester | unityproject/Assets/MasterServerKit/Core/Scripts/Server/GameRoomsZoneServerAddon.cs:89-103 | corrected: a failed spawn answers exactly the requesting player with a failure and ends its wait |
| GameRoomsZoneServerAddon.IndexOfRoomPort | unityproject/Assets/MasterServerKit/Core/Scripts/Server/GameRoomsZoneServerAddon.cs:116 | Find by port over the zone's rooms |
| GameRoomsZoneServerAddon.GameRoomsZoneServerAddon.OnCreateGameRoomRequested | unityproject/Assets/MasterServerKit/Core/Scripts/Server/GameRoomsZoneServerAddon.cs:81-105 | Spawns with the zone's properties followed by the request's. An exhausted pool sends nothing and leaves the zone's queue, launches and sends unchanged. Otherwise the head port is launched; the room is spawned iff the process starts, and is then recorded, and the zone sends the new game server the registration request carrying the requesting player's connection id; the master gets one success response with the address. A failed spawn records nothing, sends no registration and one failure response |
| GameRoomsZoneServerAddon.GameRoomsZoneServerAddon.OnDestroyGameRoomRequested | unityproject/Assets/MasterServerKit/Core/Scripts/Server/GameRoomsZoneServerAddon.cs:111-124 | the port of a recorded room is returned to the pool and acknowledged once, and the room stays recorded; an unknown port changes nothing |
| CommandLine.IntToString | unityproject/Assets/MasterServerKit/Core/Scripts/Server/ZoneServer/ZoneServer.cs:162 | the port's text is non-empty, has no spaces, and starts with '-' iff it is negative |
| CommandLine.ParseInt | unityproject/Assets/MasterServerKit/Core/Scripts/Server/GameServer/GameServer.cs:150 | int.Parse succeeds iff the text is one or more decimal digits, optionally after a '-'; a negative result has the '-'; without it the result is not negative |
| CommandLine.LaunchArguments | unityproject/Assets/MasterServerKit/Core/Scripts/Server/ZoneServer/ZoneServer.cs:163-167 | the arguments start with the ip and a space; without batch mode the rest is the port in decimal; in batch mode they end with " -batchmode -nographics" |
| CommandLine.ParseIntOfIntToString | unityproject/Assets/MasterServerKit/Core/Scripts/Server/GameServer/GameServer.cs:150 | int.Parse reads back the text int.ToString writes |
| CommandLine.WordsOfLaunchArguments | unityproject/Assets/MasterServerKit/Core/Scripts/Server/ZoneServer/ZoneServer.cs:162-166 | the launch arguments split into the ip, the port and, in batch mode, "-batchmode" and "-nographics" |
| CommandLine.AddressFromArguments | unityproject/Assets/MasterServerKit/Core/Scripts/Server/GameServer/GameServer.cs:148-152 | an address is read iff there are at least 3 arguments and argument 2 parses; it is argument 1 and the parsed port |
| CommandLine.LaunchedServerReadsItsAddress | unityproject/Assets/MasterServerKit/Core/Scripts/Server/GameServer/GameServer.cs:148-152 | round trip: a game server launched by a zone reads back exactly the ip and port the zone chose, in either batch mode |
| GameServer.ClosingSends | unityproject/Assets/MasterServerKit/Core/Scripts/Server/GameServer/GameServer.cs:334-351 | on an empty server: a destroy request with its port to the zone, for a spawned server only; then an unregister to the master when a master client exists; nothing else |
| GameServer.UpdateSends | unityproject/Assets/MasterServerKit/Core/Scripts/Server/GameServer/GameServer.cs:166-170 | one state update per queued count, in queue order |
| GameServer.UpdateSendsOfConcatenation | unityproject/Assets/MasterServerKit/Core/Scripts/Server/GameServer/GameServer.cs:166-170 | draining two batches in turn sends the same as draining them together |
| GameServer.GameServer.constructor | unityproject/Assets/MasterServerKit/Core/Scripts/Server/GameServer/GameServer.cs:26-132 | the configured fields, with an empty update queue and no master client |
| GameServer.GameServer.Start | unityproject/Assets/MasterServerKit/Core/Scripts/Server/GameServer/GameServer.cs:137-155 | a standalone server starts registering with the master; a spawned one takes its address from AddressFromArguments, and changes nothing when the arguments do not parse |
| GameServer.GameServer.RegisterInMasterServer | unityproject/Assets/MasterServerKit/Core/Scripts/Server/GameServer/GameServer.cs:262-280 | a new master client is created and starts connecting |
| GameServer.GameServer.NotifyGameServerIsReady | unityproject/Assets/MasterServerKit/Core/Scripts/Server/GameServer/GameServer.cs:232-239 | one ready notification with the adopted player connection id and the server's address |
| GameServer.GameServer.OnMasterConnected | unityproject/Assets/MasterServerKit/Core/Scripts/Server/GameServer/GameServer.cs:265-277 | on connect: the registration with the current settings, then the ready notification |
| GameServer.GameServer.OnGameServerRegistrationRequested | unityproject/Assets/MasterServerKit/Core/Scripts/Server/GameServer/GameServer.cs:286-305 | adopts the player id, the zone's address, and the name, size and password; appends (not replaces) the properties; starts registering; acknowledges once |
| GameServer.GameServer.Update | unityproject/Assets/MasterServerKit/Core/Scripts/Server/GameServer/GameServer.cs:160-182 | while connected, sends every queued update in order and empties the queue, so the last count sent is the current one; otherwise the queue waits |
| GameServer.GameServer.CloseWhenEmpty | unityproject/Assets/MasterServerKit/Core/Scripts/Server/GameServer/GameServer.cs:332-352 | nothing while players remain; when empty, the sends of ClosingSends, and a shutdown unless the missing master client threw first |
| GameServer.GameServer.AddPlayer | unityproject/Assets/MasterServerKit/Core/Scripts/Server/GameServer/GameServer.cs:359-365 | the base add, then the player count is queued, even when nobody was added; the latest queued count is the current one |
| GameServer.GameServer.RemovePlayer | unityproject/Assets/MasterServerKit/Core/Scripts/Server/GameServer/GameServer.cs:371-387 | the base remove, then the count is always queued; the close check runs only when a player was removed and closeWhenEmpty is set |
| GameServer.GameServer.OnDisconnected | unityproject/Assets/MasterServerKit/Core/Scripts/Server/BaseServer.cs:45-56 | on a game server, the disconnect reaches the RemovePlayer override, then every add-on: the count is queued, and when the last player leaves a server that closes when empty, the sends of ClosingSends go out and a shutdown is scheduled unless the master client is missing |
| GameServer.GameServer.OnPlayerInfoReceived | unityproject/Assets/MasterServerKit/Core/Scripts/Server/BaseServer.cs:62-77 | on a game server, a rename queues no update and an addition queues one |
| ClientCallbacks.Answer | unityproject/Assets/MasterServerKit/Core/Scripts/Client/GameRoomsClientAddon.cs:137-152 | a response consults only the slot it matches: it runs that slot's callback and empties it, and the other slot of the pair stays as it was |
| ClientCallbacks.AnswerReentrant | unityproject/Assets/MasterServerKit/Core/Scripts/Client/GameRoomsClientAddon.cs:137-152 | when the callback issues a new request of the same kind before returning, the handler still clears the matched field afterwards: the new request's delegate for that outcome is wiped, the other one kept |
| ClientCallbacks.RetryFromCallbackIsNeverAnswered | unityproject/Assets/MasterServerKit/Core/Scripts/Client/GameRoomsClientAddon.cs:178-197 | a callback that retries its own request loses the retry's callback of the same kind: the next such response runs nothing |
| ClientCallbacks.AnswerAllRunsEachCallbackOnceItsResponseArrives | unityproject/Assets/MasterServerKit/Core/Scripts/Client/GameRoomsClientAddon.cs:137-152 | over any run of responses after one arming, the success callback runs exactly once if a success arrives (and never otherwise), and likewise the error callback; nothing else runs |
| GameRoomsClientAddon.CreateRequest | unityproject/Assets/MasterServerKit/Core/Scripts/Client/GameRoomsClientAddon.cs:120-125 | the request carries the given name, size, password and properties; its playerConnectionId is left at 0 |
| GameRoomsClientAddon.CreateInvocation | unityproject/Assets/MasterServerKit/Core/Scripts/Client/GameRoomsClientAddon.cs:137-152 | a run callback gets the ip and port on success and the error on failure; no callback means no run |
| GameRoomsClientAddon.JoinInvocation | unityproject/Assets/MasterServerKit/Core/Scripts/Client/GameRoomsClientAddon.cs:181-196 | the same for join responses |
| GameRoomsClientAddon.GameRoomsClientAddon.Ping | unityproject/Assets/MasterServerKit/Core/Scripts/Client/GameRoomsClientAddon.cs:53-59 | stores the callback and sends one ping |
| GameRoomsClientAddon.GameRoomsClientAddon.OnResponsePing | unityproject/Assets/MasterServerKit/Core/Scripts/Client/GameRoomsClientAddon.cs:65-72 | runs the ping callback, which stays stored, so every later response runs it again |
| GameRoomsClientAddon.GameRoomsClientAddon.FindGameRooms | unityproject/Assets/MasterServerKit/Core/Scripts/Client/GameRoomsClientAddon.cs:80-89 | stores the callback and sends one find request with both filters |
| GameRoomsClientAddon.GameRoomsClientAddon.OnListGamesReceived | unityproject/Assets/MasterServerKit/Core/Scripts/Client/GameRoomsClientAddon.cs:95-102 | runs the find callback with the games; it stays stored |
| GameRoomsClientAddon.GameRoomsClientAddon.CreateGameRoom | unityproject/Assets/MasterServerKit/Core/Scripts/Client/GameRoomsClientAddon.cs:113-126 | arms both create slots, then sends one CreateRequest |
| GameRoomsClientAddon.GameRoomsClientAddon.OnResponseCreateRoom | unityproject/Assets/MasterServerKit/Core/Scripts/Client/GameRoomsClientAddon.cs:132-154 | the create pair follows Answer, and the callback run is recorded with the response's address or error |
| GameRoomsClientAddon.GameRoomsClientAddon.JoinGameRoom | unityproject/Assets/MasterServerKit/Core/Scripts/Client/GameRoomsClientAddon.cs:163-172 | arms both join slots, then sends one join request with the id and password |
| GameRoomsClientAddon.GameRoomsClientAddon.OnResponseJoinRoom | unityproject/Assets/MasterServerKit/Core/Scripts/Client/GameRoomsClientAddon.cs:178-197 | the join pair follows Answer |
| GameRoomsClientAddon.GameRoomsClientAddon.PlayNow | unityproject/Assets/MasterServerKit/Core/Scripts/Client/GameRoomsClientAddon.cs:206-215 | arms the join-success slot and both create slots, leaves the join-error slot as it was, and sends one play-now request |
| GameRoomsClientAddon.PlayNowJoinFailureReachesEarlierErrorCallback | unityproject/Assets/MasterServerKit/Core/Scripts/Client/GameRoomsClientAddon.cs:209-211 | a failed join after PlayNow runs the error callback an earlier JoinGameRoom stored |
| AuthenticationClientAddon.LoginInvocation | unityproject/Assets/MasterServerKit/Core/Scripts/Client/AuthenticationClientAddon.cs:50-66 | a run success callback takes no argument; a run error callback gets the response's error |
| AuthenticationClientAddon.RegistrationInvocation | unityproject/Assets/MasterServerKit/Core/Scripts/Client/AuthenticationClientAddon.cs:79-95 | the same for registration responses |
| AuthenticationClientAddon.AuthenticationClientAddon.OnResponsePlayerLogin | unityproject/Assets/MasterServerKit/Core/Scripts/Client/AuthenticationClientAddon.cs:45-68 | a success stores the answered username whether or not a callback is armed, and a failure keeps it; the login pair follows Answer |
| AuthenticationClientAddon.AuthenticationClientAddon.OnResponsePlayerRegistration | unityproject/Assets/MasterServerKit/Core/Scripts/Client/AuthenticationClientAddon.cs:74-96 | the registration pair follows Answer: only the matching slot runs and is emptied |
| AuthenticationClientAddon.AuthenticationClientAddon.Register | unityproject/Assets/MasterServerKit/Core/Scripts/Client/AuthenticationClientAddon.cs:106-117 | arms the registration pair and sends one request with email, username and password |
| AuthenticationClientAddon.AuthenticationClientAddon.Login | unityproject/Assets/MasterServerKit/Core/Scripts/Client/AuthenticationClientAddon.cs:126-136 | arms the login pair and sends one named login (isAnonymous false) with the credentials |
| AuthenticationClientAddon.AuthenticationClientAddon.LoginAsGuest | unityproject/Assets/MasterServerKit/Core/Scripts/Client/AuthenticationClientAddon.cs:143-151 | arms the login pair and sends one guest login (isAnonymous true) with no credentials |

## Left out

- Transport: UNET connections, handler registration, message ids and serialisation, WebGL connections. Sends are outbox entries. Connect success and failure and message arrival are event methods.
- A send over a client that has not connected yet (the game server's unregister while its master client is still connecting) is recorded as sent; the transport would drop it.
- `ReadMessage` is taken to yield a message, so the handlers' `msg != null` checks are not modelled. A null `properties` array in a message is the empty sequence.
- Promises: ConnectToZoneServer and RequestCreateGameRoom (RSG promises) are the events OnZoneConnected, OnZoneConnectFailed and OnSpawnResponse.
- Timers and process control: the 30-second close-when-empty coroutine is a call of CloseWhenEmpty. `Invoke("Shutdown", 5)` is a flag. Application.Quit and StartListening are not modelled.
- Process.Start: whether it succeeds is a parameter of each spawn, and its arguments are recorded.
- PBKDF2 (section 5.2 of RFC 2898) and Base64 (section 4 of RFC 4648) are function parameters; Base64 is required to decode what it encodes. The random salt is a parameter, and Random.Range is a nondeterministic choice.
- The SQLite, MySQL, LiteDB and MongoDB providers are not part of this model; the account store is NoDBProvider. DatabaseService and IDatabaseProvider only forward.
- A null key in the property dictionaries (which throws in .NET) is not modelled.
- Player.cs's other fields, the editor inspectors, UI, demo scripts, TimeUtils, ClientAPI, ClientAddon, BaseNetworkClient, GameClient and ChatClientAddon are not part of this model.
- C# inheritance: GameServer derives from BaseServer. Here GameServer holds its BaseServer and restates the two handlers (OnDisconnected, OnPlayerInfoReceived) that reach its overrides. The master's and zone's add-ons hold the server they are attached to.
- CommandLine.ParseInt: int.Parse is modelled on the form int.ToString writes (optional '-', decimal digits). It does not model surrounding white space, a '+' sign, or the OverflowException beyond 32 bits.
- CryptoUtils.CheckPasswordsAreEqual: requires a stored string that decodes to at least 36 bytes. The source indexes the decoded array without a check and throws otherwise; every password the store writes meets this.
- AuthenticationServerAddon.AuthenticationServerAddon.OnPlayerRegistrationRequested: on success it states only that one account was added; the account's content is stated by NoDBProvider.NoDBProvider.Register.
- ZoneServer.ZoneServer.Start: the messages of the pre-spawns and the launch count are stated, but not which launch succeeded; that is SpawnGameServer's contract.
- GameRoomsMasterServerAddon.GameRoomsMasterServerAddon.RegisterGameServer: freshness of the new id is proved only before the C# int counter wraps. Registration goes on after the wrap, with negative ids and then ids handed out before, as in the source.
- The game rooms of the zone's pre-spawn are not recorded by the zone's add-on, as in the source.
- Client callbacks are opaque numbers and cannot act, so the client add-on handlers follow ClientCallbacks.Answer. The case of a callback that issues a new request before it returns, whose delegate the handler then clears, is modelled by ClientCallbacks.AnswerReentrant and RetryFromCallbackIsNeverAnswered, not by the handlers.
- BaseServer records each add-on notice of a disconnect but does not dispatch it to the add-on's handler; those handlers, such as GameRoomsMasterServerAddon's OnDisconnectedFromBaseServer, are modelled as methods of their own.

## Findings

| source | as written | input that shows it | evidently intended | confidence | as-written member | corrected member |
|---|---|---|---|---|---|---|
| unityproject/Assets/MasterServerKit/Core/Scripts/Server/GameRoomsZoneServerAddon.cs:89-103 | The zone's spawn response never sets playerConnectionId, so it is 0. The master looks up the waiting player by that id (GameRoomsMasterServerAddon.cs:337). | The player on connectionId 1 asks for a room. Process.Start throws in the zone, and the failure names connection 0. The player is never answered and stays in the waiting list. | The response carries the request's playerConnectionId, so the requesting player receives the failure and stops waiting. | medium, not executed | GameRoomsZoneServerAddon.FailedSpawnLeavesPlayerWaiting | GameRoomsZoneServerAddon.IntendedFailedSpawnAnswersRequester |

The zone's handler, `GameRoomsZoneServerAddon.OnCreateGameRoomRequested`, still sends the response as written (`SpawnResponse`), because that is what the master receives. `FailedSpawnExample` works one concrete case both ways. `IntendedSpawnResponse` is the corrected definition, and `IntendedFailedSpawnAnswersRequester` proves that it answers exactly the requesting player.

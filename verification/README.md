# Steamworks transport for Netick: a Dafny model

This project models the connection lifecycle of `SteamworksTransport`, the
Netick transport that runs over Steam's peer-to-peer relay, together with the
decision logic of the `SteamLobbyExample` lobby demo.

The transport part covers four things:

- A **registry** maps each SDK connection handle to its
  `SteamworksConnection` record.
- A **free pool** is a FIFO queue of records. `Init` fills it with
  `MaxClients` entries.
- Three SDK status events move records between the two:
  - `Connecting` runs a capacity check;
  - `Connected` takes the head of the pool and binds it;
  - `ClosedByPeer` returns the record to the pool.
- Around this machine sit:
  - the send-mode mapping and the send path;
  - the engine's `Disconnect`;
  - the bounded per-connection drain of `PollEvents`;
  - the client's `Connect` guard on a decimal Steam id;
  - `Shutdown`.

The lobby part covers:

- the `+connect_lobby` command-line scan;
- the match-list rebuild;
- the search filters;
- lobby creation with a deferred lobby type;
- the guard on starting a game server.

The model uses immutable state and pure transition functions. Every call into
the relay SDK, Steam matchmaking or the engine is an entry in the trace a
transition returns (`Effect`, `Call`). SDK queries are inputs:

- the engine's connected-player count;
- lobby ownership;
- whether a network is running;
- member counts;
- the persona name;
- the handle `ConnectP2P` returns;
- the order in which the dictionary enumerates its keys.

The C# code can throw in two places. Both are a `Threw` outcome that leaves
the state unchanged, because both throws happen before any mutation:

- `Queue.Dequeue` on an empty pool;
- the dictionary indexer on an unregistered handle.

Over a run of events, a thrown handler aborts only its own callback. The
next event is handled on the unchanged state, and the exception is recorded
in the run's trace.

Status events reach a handler only while a callback is subscribed. A server
subscribes in `Run`, a client in `Connect`, and `Shutdown` disposes the
subscription. Before the subscription and after `Shutdown`, a status event
changes nothing.

Modules:

- `Common`: `Option`, and the `u32` and `u64` integer types.
- `TextParsing`: `ulong.TryParse` with its default number style, the decimal
  printing it inverts, and ASCII lower-casing.
- `Transport`: the state, the send path, the status handlers, `Connect`,
  `Disconnect` and `Shutdown`.
- `Dispatch`: `PollEvents`.
- `TransportProofs`:
  - record accounting over runs of events;
  - the well-formedness invariant;
  - the places where records leak;
  - small scenarios.
- `Lobby`: the lobby demo.

`SteamworksConnection` records are mutable objects in the source. A record
taken from the pool is overwritten in place, and every holder of the
reference sees the new fields, the engine included. The model therefore keeps
a heap from references to the two fields the transport uses (handle and
player id). The pool, the dictionary and the engine all hold references.
"Lost" means that a reference is in neither the pool nor the dictionary.
`Send`, `SendUserData`, `Disconnect` and `GetPlayerSteamID` read the object
the engine names, so they need a reference to an allocated object. The engine
only ever holds references the transport handed it.

The dictionary, the send settings and the Steam id are static. A transport
constructed later in the same process (`NewTransportAfter`) inherits the
dictionary the earlier one left behind.

Behaviours of the handlers worth knowing:

- A `ClosedByPeer` event for an unregistered handle throws
  `KeyNotFoundException` at the first dictionary lookup, so the model gives
  `Threw(KeyNotFound)`.
- The capacity check compares the engine's connected-player count with
  `MaxClients`, not the registry size. The model takes that count as an
  input, and `CapacityCheckMatchesPool` states when the two agree.
- A duplicate `Connected` has already dequeued and overwritten a record when
  `TryAdd` fails, and that record is never returned.
  `DuplicateConnectedLosesRecord` states this.
- A record returned by `ClosedByPeer` is still the engine's object for the
  old client. Once the pool hands it to the next client, the engine's old
  reference reaches the new client. `StaleReferenceReachesNextClient`
  states this.

## Model

| member | source | states |
|---|---|---|
| Transport.FlagFor | Assets/Netick/Transports/Steamworks.NET/SteamworksTransportProvider.cs:101-110 | each of the four send modes selects its own SDK flag: the mapping is inverted by `SendTypeOf`, so no two modes share a flag |
| Transport.SetSendType | Assets/Netick/Transports/Steamworks.NET/SteamworksTransportProvider.cs:101-110 | after the call the configured flag is the one of the requested mode, and no other part of the state changes |
| Transport.NewTransport | Assets/Netick/Transports/Steamworks.NET/SteamworksTransportProvider.cs:80-99 | the first transport in a process has the requested send mode and flush setting, an empty static dictionary, no allocated object, an empty pool, the client role, no host handle and no subscription |
| Transport.Send | Assets/Netick/Transports/Steamworks.NET/SteamworksTransportProvider.cs:64-69 | a send on an object uses the configured flag on the handle the object holds at the time of the call, and it is followed by a flush of that handle if and only if ForceFlush is set |
| Transport.SendUserData | Assets/Netick/Transports/Steamworks.NET/SteamworksTransportProvider.cs:70-74 | a user-data send goes to the handle the object holds; it is unreliable exactly when the delivery method is Unreliable, otherwise reliable, and is never flushed |
| Transport.FreshRefs | Assets/Netick/Transports/Steamworks.NET/SteamworksTransportProvider.cs:140-141 | the references of the n objects Init constructs are consecutive from the allocator's mark, so they are pairwise distinct, and they are exactly the numbers in that range |
| Transport.AllocateBlank | Assets/Netick/Transports/Steamworks.NET/SteamworksTransportProvider.cs:140-141 | the heap gains exactly the new references, each a blank object, and every other object keeps its fields |
| Transport.NewTransportAfter | Assets/Netick/Transports/Steamworks.NET/SteamworksTransportProvider.cs:80-99 | a later transport in the same process keeps the static dictionary, the Steam id and the allocated objects; it starts with an empty pool, the client role, no host handle and no subscription, and sets the requested send settings |
| Transport.Init | Assets/Netick/Transports/Steamworks.NET/SteamworksTransportProvider.cs:126-154 | without an initialised Steam client nothing changes; otherwise the relay is initialised and the local id recorded, and maxClients blank objects with new, pairwise distinct references join the back of the pool; the send settings, the dictionary, the role, the host handle, the subscription and every existing object are unchanged |
| Transport.Run | Assets/Netick/Transports/Steamworks.NET/SteamworksTransportProvider.cs:156-182 | the transport is a server exactly in server mode; a server opens a listen socket and subscribes the server callback, a client only records its role; nothing else changes |
| Transport.Shutdown | Assets/Netick/Transports/Steamworks.NET/SteamworksTransportProvider.cs:184-214 | a server closes its listen socket and keeps its host handle; a client with an open host connection closes it gracefully and forgets it; a client without one closes nothing; the subscription is released and the shutdown event raised last; the dictionary, the pool and the send settings are untouched |
| Transport.ServerOnConnecting | Assets/Netick/Transports/Steamworks.NET/SteamworksTransportProvider.cs:290-306 | the connection is closed with MaxConnectionCount exactly when the engine's connected count equals MaxClients and accepted otherwise; the state never changes |
| Transport.ServerOnConnected | Assets/Netick/Transports/Steamworks.NET/SteamworksTransportProvider.cs:308-324 | it throws exactly when the pool is empty; otherwise the head object is overwritten with the handle and remote id and leaves the pool; a new handle is registered to it and announced; a registered handle leaves the registry unchanged and announces nothing; nothing else changes |
| Transport.ServerOnDisconnected | Assets/Netick/Transports/Steamworks.NET/SteamworksTransportProvider.cs:327-336 | it throws exactly when the handle is unregistered; otherwise the registered object goes to the back of the pool with its fields intact, the engine hears Timeout, the handle is unregistered and the connection closed gracefully |
| Transport.Disconnect | Assets/Netick/Transports/Steamworks.NET/SteamworksTransportProvider.cs:268-276 | the handle the object holds now is flushed, closed and unregistered, whichever object the dictionary maps it to; the pool is unchanged, so nothing is returned to it |
| Transport.OnConnectionStatusChangedServer | Assets/Netick/Transports/Steamworks.NET/SteamworksTransportProvider.cs:280-288 | Connecting, Connected and ClosedByPeer go to their handlers; every other state changes nothing and emits nothing |
| Transport.OnConnectionStatusChangedClient | Assets/Netick/Transports/Steamworks.NET/SteamworksTransportProvider.cs:358-366 | the client callback behaves exactly like the server callback on every event |
| Transport.Connect | Assets/Netick/Transports/Steamworks.NET/SteamworksTransportProvider.cs:342-356 | an address that does not parse as a ulong leaves everything unchanged; a parsed one subscribes the client callback, connects to exactly that id and records the returned handle as the host connection |
| Transport.GetPlayerSteamID | Assets/Netick/Transports/Steamworks.NET/SteamworksTransportProvider.cs:112-123 | the server player reports the static local Steam id; a remote player reports the id its object holds at the time of the call |
| Dispatch.Batch | Assets/Netick/Transports/Steamworks.NET/SteamworksTransportProvider.cs:234 | one receive call returns the oldest waiting messages in order, all of them up to MAX_MESSAGES and never more |
| Dispatch.Remainder | Assets/Netick/Transports/Steamworks.NET/SteamworksTransportProvider.cs:234 | what one receive call leaves is the queue less the batch, and something is left only after a full batch |
| Dispatch.BatchThenRemainder | Assets/Netick/Transports/Steamworks.NET/SteamworksTransportProvider.cs:234 | a receive call loses nothing: the batch followed by what is left is exactly the queue |
| Dispatch.Consume | Assets/Netick/Transports/Steamworks.NET/SteamworksTransportProvider.cs:234 | a receive call on one handle leaves that handle its remainder and every other handle's queue as it was |
| Dispatch.PollServer | Assets/Netick/Transports/Steamworks.NET/SteamworksTransportProvider.cs:229-242 | the deliveries are the registered connections' batches, each whole, one after another in the dictionary's enumeration order; each goes to the record registered for its handle, and each registered handle keeps its remainder; unregistered handles deliver nothing and keep their queues |
| Dispatch.PollInOrder | Assets/Netick/Transports/Steamworks.NET/SteamworksTransportProvider.cs:229-242 | the receive loop, taking each visited connection's batch from what the SDK holds at that moment, delivers exactly the batches of the queues as they stood before the poll, in visiting order, and leaves what one receive call per visit leaves |
| Dispatch.GroupedPolled | Assets/Netick/Transports/Steamworks.NET/SteamworksTransportProvider.cs:229-242 | visiting a whole enumeration delivers every registered connection's batch to its own record and nothing from any other handle, keeps each registered queue's remainder and leaves every other queue untouched |
| Dispatch.PollClient | Assets/Netick/Transports/Steamworks.NET/SteamworksTransportProvider.cs:243-253 | the client delivers the host connection's batch, in order, to the never-assigned client-to-server record and touches no other queue |
| Dispatch.PollEvents | Assets/Netick/Transports/Steamworks.NET/SteamworksTransportProvider.cs:227-254 | each drained connection (every registered one on a server, the host on a client) delivers at most 256 messages, oldest first, and keeps the rest; other connections are untouched; server deliveries go to the sending handle's record |
| Dispatch.RunSelectsDrained | Assets/Netick/Transports/Steamworks.NET/SteamworksTransportProvider.cs:156-254 | after Run a server's polls drain every registered connection and a client's only its host connection |
| Dispatch.ServerPollsNewConnection | Assets/Netick/Transports/Steamworks.NET/SteamworksTransportProvider.cs:227-324 | a running server that sees a first Connected drains that connection on the next poll, delivering to the object taken from the pool |
| Dispatch.ClientPollsHost | Assets/Netick/Transports/Steamworks.NET/SteamworksTransportProvider.cs:243-356 | a running client that connects to a valid id drains exactly the connection the SDK returned |
| TransportProofs.StepAccounting | Assets/Netick/Transports/Steamworks.NET/SteamworksTransportProvider.cs:268-336 | each event or disconnect, including one whose handler throws, keeps pool size plus registry size, except for the one record it leaks (duplicate Connected, Disconnect of a registered handle) |
| TransportProofs.ConnectedAccounting | Assets/Netick/Transports/Steamworks.NET/SteamworksTransportProvider.cs:308-324 | a Connected that does not throw keeps pool size plus registry size, minus one exactly when the handle was already registered |
| TransportProofs.DisconnectedAccounting | Assets/Netick/Transports/Steamworks.NET/SteamworksTransportProvider.cs:327-336 | a ClosedByPeer that does not throw keeps pool size plus registry size |
| TransportProofs.KickAccounting | Assets/Netick/Transports/Steamworks.NET/SteamworksTransportProvider.cs:268-276 | the engine's Disconnect keeps pool size plus registry size, minus one exactly when the handle the object holds is registered |
| TransportProofs.RunAccounting | Assets/Netick/Transports/Steamworks.NET/SteamworksTransportProvider.cs:268-336 | over any run, including runs in which handlers throw and later events are still handled, pool size plus registry size drops by exactly the number of records leaked, and never grows |
| TransportProofs.StatusNeedsSubscription | Assets/Netick/Transports/Steamworks.NET/SteamworksTransportProvider.cs:156-206 | with no subscribed callback a status event changes nothing and emits nothing; with either callback subscribed it is handled exactly as the server callback handles it |
| TransportProofs.ShutdownIgnoresLaterEvents | Assets/Netick/Transports/Steamworks.NET/SteamworksTransportProvider.cs:202-206 | after Shutdown released the subscription, a peer closing a registered connection leaves its handle registered and its record out of the pool |
| TransportProofs.ConnectedKeepsWellFormed | Assets/Netick/Transports/Steamworks.NET/SteamworksTransportProvider.cs:308-324 | Connected keeps every object owned at most once, every owned reference allocated, and every registered object holding its own handle |
| TransportProofs.DisconnectedKeepsWellFormed | Assets/Netick/Transports/Steamworks.NET/SteamworksTransportProvider.cs:327-336 | ClosedByPeer keeps every object owned at most once, every owned reference allocated, and every registered object holding its own handle |
| TransportProofs.StepKeepsWellFormed | Assets/Netick/Transports/Steamworks.NET/SteamworksTransportProvider.cs:268-336 | every status event and disconnect, including one whose handler throws, preserves well-formedness |
| TransportProofs.RunKeepsWellFormed | Assets/Netick/Transports/Steamworks.NET/SteamworksTransportProvider.cs:268-336 | every run of status events and disconnects preserves well-formedness, whether or not handlers throw along the way |
| TransportProofs.InitKeepsWellFormed | Assets/Netick/Transports/Steamworks.NET/SteamworksTransportProvider.cs:126-142 | Init on a well-formed transport keeps it well formed and adds exactly maxClients owned records |
| TransportProofs.InitFillsPool | Assets/Netick/Transports/Steamworks.NET/SteamworksTransportProvider.cs:126-142 | after Init on a ready client the pool holds exactly MaxClients distinct records and the registry is empty |
| TransportProofs.RegistryWithinCapacity | Assets/Netick/Transports/Steamworks.NET/SteamworksTransportProvider.cs:125-182 | for the first transport in a process, whatever events and disconnects follow Init and Run in either mode, thrown handlers included, the registry never holds more than MaxClients connections and the state stays well formed |
| TransportProofs.LaterTransportCapacity | Assets/Netick/Transports/Steamworks.NET/SteamworksTransportProvider.cs:83-182 | for a later transport in the same process, started with Init and Run, the registry after any run is bounded by the inherited registry plus MaxClients |
| TransportProofs.LaterTransportExceedsMaxClients | Assets/Netick/Transports/Steamworks.NET/SteamworksTransportProvider.cs:83-182 | the bound is not MaxClients alone: a later server with one slot that inherited handle 10 holds two connections after one Connected for handle 11 |
| TransportProofs.LaterServerInheritsHandles | Assets/Netick/Transports/Steamworks.NET/SteamworksTransportProvider.cs:229-322 | a server started after an earlier session in the same process polls the handles that session left registered, and a Connected for one of those handle numbers announces nothing and loses a record |
| TransportProofs.ConnectedBindsRemoteId | Assets/Netick/Transports/Steamworks.NET/SteamworksTransportProvider.cs:308-324 | a first Connected registers the head object for the handle and announces it; GetPlayerSteamID then reports the remote id for it; no record is lost |
| TransportProofs.DuplicateConnectedLosesRecord | Assets/Netick/Transports/Steamworks.NET/SteamworksTransportProvider.cs:312-322 | a repeated Connected changes neither the registry nor the engine's view, yet the dequeued record is owned by nobody afterwards |
| TransportProofs.ClosedByPeerReturnsRecord | Assets/Netick/Transports/Steamworks.NET/SteamworksTransportProvider.cs:327-336 | ClosedByPeer on a registered handle puts its record at the back of the pool, reports Timeout, unregisters the handle and keeps the record count |
| TransportProofs.DisconnectLosesRecord | Assets/Netick/Transports/Steamworks.NET/SteamworksTransportProvider.cs:268-276 | Disconnect of an object whose handle is registered unregisters that handle and leaves the record registered for it owned by nobody, so the transport owns one record fewer |
| TransportProofs.CapacityCheckMatchesPool | Assets/Netick/Transports/Steamworks.NET/SteamworksTransportProvider.cs:293 | when the engine's count equals the registry size and nothing has leaked, the capacity check refuses exactly when the pool is empty |
| TransportProofs.SendAfterCloseStillForwards | Assets/Netick/Transports/Steamworks.NET/SteamworksTransportProvider.cs:64-69 | after ClosedByPeer unregisters a handle, Send on the object the engine still holds goes to the SDK on that closed handle, until the object is taken from the pool again |
| TransportProofs.StaleReferenceReachesNextClient | Assets/Netick/Transports/Steamworks.NET/SteamworksTransportProvider.cs:268-336 | on a server started with one slot, after a client closes and the next client takes the same object, the engine's reference from the first client sends to the new handle, reports the new player id, and its Disconnect closes and unregisters the new client |
| TransportProofs.RunKeepsSendSettings | Assets/Netick/Transports/Steamworks.NET/SteamworksTransportProvider.cs:80-81 | no status event or disconnect changes the send flag or the flush setting |
| TransportProofs.ConfiguredSendUsesMode | Assets/Netick/Transports/Steamworks.NET/SteamworksTransportProvider.cs:64-182 | whatever events follow construction, Init and Run, every Send uses the flag of the constructor's mode and flushes exactly when the constructor asked for it |
| TransportProofs.SetSendTypeRedirectsSends | Assets/Netick/Transports/Steamworks.NET/SteamworksTransportProvider.cs:64-110 | after SetSendType every Send uses the new mode's flag and keeps the flush behaviour |
| TransportProofs.UserDataIgnoresSendSettings | Assets/Netick/Transports/Steamworks.NET/SteamworksTransportProvider.cs:70-74 | the configured send mode and flush setting never change a user-data send |
| TransportProofs.ConnectToPrintedId | Assets/NetickSteamworksDemo/LobbyDemo/SteamLobbyExample.cs:267-268 | a server id printed in decimal passes Connect's guard, and Connect connects to exactly that id |
| TransportProofs.ShutdownClosesHostOnce | Assets/Netick/Transports/Steamworks.NET/SteamworksTransportProvider.cs:192-199 | a connected client's shutdown closes the handle Connect obtained, and a second shutdown closes nothing |
| TransportProofs.ConnectingAcceptedBelowLimit | Assets/Netick/Transports/Steamworks.NET/SteamworksTransportProvider.cs:290-306 | while a callback is subscribed and the engine's count is not MaxClients, a Connecting event is accepted and changes nothing else |
| TransportProofs.SimultaneousConnectsOverflowPool | Assets/Netick/Transports/Steamworks.NET/SteamworksTransportProvider.cs:293-312 | on a server started with two slots, three clients still Connecting are all accepted, because the engine counts nobody yet; the third Connected then finds the pool empty and throws |
| TransportProofs.ThirdConnectedOverflows | Assets/Netick/Transports/Steamworks.NET/SteamworksTransportProvider.cs:308-324 | on a subscribed transport with two pooled records and nothing registered, three Connected events register the first two handles and the third throws on the empty pool |
| TransportProofs.KickExhaustsPool | Assets/Netick/Transports/Steamworks.NET/SteamworksTransportProvider.cs:268-312 | on a server started with one slot, a connection the engine disconnects takes the only record with it, and the next client's Connected throws |
| TextParsing.ParseSigned | Assets/NetickSteamworksDemo/LobbyDemo/SteamLobbyExample.cs:114 | after trimming, the parse succeeds exactly on an optional plus sign, or a minus sign before a zero value, followed by a non-empty digit run whose value is below 2^64, and yields that value |
| TextParsing.ParseULong | Assets/NetickSteamworksDemo/LobbyDemo/SteamLobbyExample.cs:114 | on a plain digit string ulong.TryParse succeeds exactly when the decimal value is below 2^64 and yields that value; text that is empty after trimming fails, and a success contains a digit |
| TextParsing.ParseULongIsNumberText | Assets/NetickSteamworksDemo/LobbyDemo/SteamLobbyExample.cs:114 | ulong.TryParse succeeds exactly when the text is white space, a signed numeral as above and white space, with the value below 2^64, and yields that value |
| TextParsing.TrimOfNumberText | Assets/NetickSteamworksDemo/LobbyDemo/SteamLobbyExample.cs:114 | around a signed numeral, trimming removes exactly the surrounding white space |
| TextParsing.TrimmedParse | Assets/NetickSteamworksDemo/LobbyDemo/SteamLobbyExample.cs:114 | a successful parse of the trimmed text is a numeral between white space, and every such numeral below 2^64 parses to its value |
| TextParsing.ParseSkipsWhite | Assets/Netick/Transports/Steamworks.NET/SteamworksTransportProvider.cs:344 | white space around the digits is skipped: `" 12\t"` parses to 12 |
| TextParsing.ParseAcceptsPlus | Assets/Netick/Transports/Steamworks.NET/SteamworksTransportProvider.cs:344 | a plus sign before the digits is accepted: `"+7"` parses to 7 |
| TextParsing.ParseAcceptsMinusZero | Assets/Netick/Transports/Steamworks.NET/SteamworksTransportProvider.cs:344 | a minus sign is accepted before a zero value: `"-0"` parses to 0 |
| TextParsing.ParseRejects | Assets/Netick/Transports/Steamworks.NET/SteamworksTransportProvider.cs:344 | a minus sign before a non-zero value, a stray letter, and the value 2^64 are all rejected |
| TextParsing.ToDecimal | Assets/NetickSteamworksDemo/LobbyDemo/SteamLobbyExample.cs:268 | the printed form of a number is a non-empty digit string whose decimal value is that number |
| TextParsing.ParseToDecimal | Assets/NetickSteamworksDemo/LobbyDemo/SteamLobbyExample.cs:268 | parsing the printed form of any 64-bit id gives the id back |
| TextParsing.LowerEqualsIsToLower | Assets/NetickSteamworksDemo/LobbyDemo/SteamLobbyExample.cs:112 | the character-by-character comparison holds exactly when the lower-cased argument equals the flag |
| Lobby.JoinAfterFlag | Assets/NetickSteamworksDemo/LobbyDemo/SteamLobbyExample.cs:114-120 | the argument after the flag yields a lobby exactly when it parses as a ulong greater than 0, and then yields the parsed id |
| Lobby.LobbyToJoin | Assets/NetickSteamworksDemo/LobbyDemo/SteamLobbyExample.cs:107-124 | a lobby is joined only if it follows the first flag among indices 0..len-2 and parses as a positive ulong; otherwise nothing is joined, even when a later flag is followed by a valid id |
| Lobby.FlagAnswers | Assets/NetickSteamworksDemo/LobbyDemo/SteamLobbyExample.cs:110-122 | once the first flag is found, the argument after it alone decides the scan's answer |
| Lobby.FirstFlagIsUnique | Assets/NetickSteamworksDemo/LobbyDemo/SteamLobbyExample.cs:110-112 | a flag with no flag before it is the only first flag |
| Lobby.NoFlagNoFirst | Assets/NetickSteamworksDemo/LobbyDemo/SteamLobbyExample.cs:108-110 | a scan that meets no flag has no first flag |
| Lobby.MatchList | Assets/NetickSteamworksDemo/LobbyDemo/SteamLobbyExample.cs:153-167 | the rebuilt list has no duplicates and is no longer than the listing; it holds every lobby listed with members and nothing else, in the order each is first listed with members |
| Lobby.FirstOccupiedUnique | Assets/NetickSteamworksDemo/LobbyDemo/SteamLobbyExample.cs:158-164 | a lobby has at most one first index at which it is listed with members |
| Lobby.DistanceRequest | Assets/NetickSteamworksDemo/LobbyDemo/SteamLobbyExample.cs:143-148 | Close, Far and WorldWide each request their own SDK distance filter, which FilterOf maps back to the setting, and Default requests none; the SDK default filter is never requested |
| Lobby.SearchPublicLobbies | Assets/NetickSteamworksDemo/LobbyDemo/SteamLobbyExample.cs:136-151 | a search remembers Public; it adds the slots and game-name filters, a distance filter exactly when the setting is not Default, and ends with the list request |
| Lobby.CreateLobby | Assets/NetickSteamworksDemo/LobbyDemo/SteamLobbyExample.cs:169-173 | the requested type is remembered, and the lobby is created private with NumberOfSlots members |
| Lobby.CreateLobbyFromInt | Assets/NetickSteamworksDemo/LobbyDemo/SteamLobbyExample.cs:175-179 | any integer is remembered as it is, and the lobby is created private |
| Lobby.LobbyTypeRequest | Assets/NetickSteamworksDemo/LobbyDemo/SteamLobbyExample.cs:192-203 | 0, 1 and 2 select Public, FriendsOnly and Private, and any other value selects nothing |
| Lobby.StartGameServer | Assets/NetickSteamworksDemo/LobbyDemo/SteamLobbyExample.cs:240-254 | a host is started, on the configured port, exactly when this player owns the lobby and no network is running |
| Lobby.OnLobbyCreated | Assets/NetickSteamworksDemo/LobbyDemo/SteamLobbyExample.cs:181-207 | the new lobby is made current and gets exactly three naming and joinable calls; then a type call exactly when the remembered type is an enum value, with the type it selects; then the host start exactly when auto-start is on and the StartGameServer guard passes; nothing else |
| Lobby.CreatedLobbyGetsRequestedType | Assets/NetickSteamworksDemo/LobbyDemo/SteamLobbyExample.cs:169-203 | creating a lobby of any declared type creates it private, and its creation callback then sets exactly that type |
| Lobby.OutOfRangeTypeStaysPrivate | Assets/NetickSteamworksDemo/LobbyDemo/SteamLobbyExample.cs:175-203 | a type integer outside the enum never produces a type call, so the lobby stays private |
| Lobby.SearchBeforeCallbackMakesLobbyPublic | Assets/NetickSteamworksDemo/LobbyDemo/SteamLobbyExample.cs:136-207 | a search started before the creation callback arrives makes the new lobby public, whatever type was asked for, because both share the remembered type |
| Lobby.AutoStartIsStartGameServer | Assets/NetickSteamworksDemo/LobbyDemo/SteamLobbyExample.cs:205-254 | with auto-start on, the creation callback ends with exactly the calls StartGameServer makes; without it, no host is started |

## Left out

- SDK and engine calls (`SteamNetworkingSockets`, `SteamMatchmaking`,
  `SteamUser`, `SteamFriends`, `NetworkPeer`, `Network`) are foreign code.
  Each is an effect or call in the returned trace, or an input. SDK failure
  codes are not modelled: an accepted connection is the `AcceptConnection`
  effect, whatever the SDK answers.
- The `OnMessage` pointer cast, `BitBuffer.SetFrom` and message `Release` are
  native memory handling. A message is a byte sequence, delivered whole.
- The readiness loops of `InitSteamworks` and the demo's `Init` rely on async
  yielding. Because `Init` has just seen Steam ready, the model runs the
  relay initialisation and Steam-id capture synchronously.
- Static events, delegate wiring, `OnLoad`, `OnValidate`, the `EndPoint` and
  `Mtu` constants, and all logging are Unity plumbing.
- `ClientOnConnecting`, `ClientOnConnected` and `ClientOnDisconnected` are
  never called, because the client callback routes to the server handlers.
  For the same reason the client-to-server record is never assigned, and
  client deliveries go to a null peer.
- `Shutdown`: the `try`/`catch` around the SDK teardown is not modelled. The
  SDK calls are effects and cannot throw.
- `Transport.NewTransport`: the empty dictionary holds only for the first
  transport in a process, because the dictionary is static and neither the
  constructor nor `Shutdown` clears it. Later instances are
  `NewTransportAfter`. The model has one transport value at a time, not
  two live instances sharing the static fields.
- The registry may change while `PollEvents` enumerates it: the engine's
  `NetworkPeer.Receive` could call `Disconnect`, which removes from the same
  dictionary. The model assumes the engine does not. A C# dictionary would
  throw on the next step of that enumeration. The enumeration order is an
  input.
- `TextParsing.ParseULong`: trailing NUL characters and culture-specific
  signs, which `ulong.TryParse` also accepts, are not modelled.
- `TextParsing.LowerChar`: only ASCII letters are lowered, whereas
  `string.ToLower` follows the current culture.
- `Transport.SetSendType`: the source's `switch` has no default branch, but
  `SteamSendType` has only its four declared values here. An integer cast to
  the enum outside 0..3 leaves the flag unchanged in the source.
- The rest of the lobby demo is event wiring or direct SDK calls:
  - `OnGameLobbyJoinRequested`, `OnLobbyEntered`, `OnLobbyGameCreated`;
  - `ConnectToGameServer`, `LeaveLobby`, `JoinLobby`;
  - `OnNetickServerStarted`, `OnNetickShutdown`.
- `SteamLobbyMenu.cs` is UI code and is not part of this model.

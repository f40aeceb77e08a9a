# croc: session engine, pre-round gate and chat reducer

This project models three pieces of the croc drawing-and-guessing game in Dafny and proves their properties:

- **The session engine of a room** (`Game`). Players connect and get a fresh id. They may come back with that id within a grace period: the reconnect finds the record, marks it connected and cancels its pending delete. When they disconnect, the record stays but is marked disconnected, and a delayed delete is armed. When the delayed delete fires, the record is expired. Every change is broadcast to the room through the responder. A join, a disconnect and an expiry are each also fed back to the engine as a `'self'` message; a reconnect is not.
- **The pre-round gate of the round state machine** (`BeforeRoundState`). It starts a round automatically when exactly two players are connected. It falls back to waiting when a disconnect leaves fewer than two connected. It accepts a word pick only from the current picker. Its start-round routine works in four steps:
  1. It resolves the leader: the stored one, else the first connected player.
  2. It resolves the word: the stored one when non-empty, else a freshly picked one.
  3. It tells everyone who leads.
  4. It sends the word to the leader alone.
- **The client's chat reducer** (`chatMessages`). It appends incoming messages to the list. When the action names a sender, each new message is stamped with that sender.

Layout:

- `common.dfy`: `Option`, JavaScript truthiness of an optional string, and distinctness of a sequence.
- `roster.dfy`: the player dictionary, with the order `Object.keys` enumerates it in, and the facts about counting, inserting and deleting.
- `outbox.dfy`: abstract responder records and `'self'` notifications.
- `game_session.dfy`: the `Game` class. Its fields are the maps the source mutates, with a ghost outbox. Timers are handles, and firing one is an explicit event.
- `before_round_state.dfy`: the room data as a `Context` class. Each handler is a method proved equal to a spec function (`After…`) of the old data, and the properties of the gate are lemmas about those functions.
- `chat_messages.dfy`: the reducer as a function, with lemmas.

Two behaviours a reader might not expect:

- A reconnect does not send the record only to the returning player: it broadcasts it to *all* players (`enqueueResponseForAll`).
- A word pick by the picker stores its payload in `word` before the round start decides whether a leader exists. When no leader resolves, the payload therefore stays stored.

## Model

| member | source | states |
|---|---|---|
| Roster.ConnectedCount | packages/croc-game-server/src/Game.ts:144-148 | definition, no contract: the length of the filter of the keys to those not marked disconnected. Its meaning is proved by `ConnectedCountIsSize`, `ConnectedCountBound` and `ConnectedCountIsConnectedIds` |
| Roster.Records | packages/croc-game-server/src/Game.ts:127-129 | definition, no contract: the records in key order. Its behaviour under a join is proved by `RecordsAppend` |
| Roster.RemoveId | packages/croc-game-server/src/Game.ts:109 | definition, no contract: the key order after `delete`. Its meaning is proved by `RemoveIdFacts`, `RemoveIdAbsent` and `RemoveIdSplice` |
| Roster.RemoveIdFacts | packages/croc-game-server/src/Game.ts:109 | after `delete players[id]` the enumeration holds exactly the other keys, keeps no repetitions, and is one shorter exactly when the key was present |
| Roster.RemoveIdAbsent | packages/croc-game-server/src/Game.ts:109 | deleting a key that is not enumerated leaves the enumeration unchanged |
| Roster.RemoveIdSplice | packages/croc-game-server/src/Game.ts:109 | deleting the key at position k splices it out: the keys before and after it keep their order |
| Roster.WellFormedSize | packages/croc-game-server/src/Game.ts:140-142 | the number of enumerated keys is the size of the dictionary |
| Roster.ConnectedCountIsSize | packages/croc-game-server/src/Game.ts:144-148 | the filtered key count is the number of distinct connected ids, whatever the order |
| Roster.ConnectedCountBound | packages/croc-game-server/src/Game.ts:144-148 | the filter keeps at most every key |
| Roster.ConnectedCountIsConnectedIds | packages/croc-game-server/src/Game.ts:140-148 | over a well-formed roster, `numberOfConnectedPlayers` is the size of the connected set and never exceeds `numberOfPlayers` |
| Roster.WellFormedInsert | packages/croc-game-server/src/Game.ts:63 | inserting a new key appends it to the enumeration and keeps the roster well formed |
| Roster.WellFormedUpdate | packages/croc-game-server/src/Game.ts:79 | changing a record in place keeps the roster well formed |
| Roster.WellFormedRemove | packages/croc-game-server/src/Game.ts:109 | deleting a key keeps the roster well formed and shortens the enumeration exactly when the key was present |
| Roster.ConnectedIdsUpdate | packages/croc-game-server/src/Game.ts:79 | setting a player's flag moves exactly that id into or out of the connected set |
| Roster.RecordsAppend | packages/croc-game-server/src/Game.ts:124-132 | after a join, the enumerated records are the old ones followed by the newcomer's |
| GameSession.ReconnectKeepsTimersInStep | packages/croc-game-server/src/Game.ts:79-87 | a reconnect keeps the timers in step, and no pending delete is left for the reconnected id |
| GameSession.JoinKeepsTimersInStep | packages/croc-game-server/src/Game.ts:60-63 | a join under a fresh id keeps the timers in step |
| GameSession.DisconnectKeepsTimersInStep | packages/croc-game-server/src/Game.ts:102-114 | disconnecting a connected player with a new handle keeps the timers in step |
| GameSession.FireKeepsTimersInStep | packages/croc-game-server/src/Game.ts:108-113 | a firing delete keeps the timers in step |
| GameSession.JoinCounts | packages/croc-game-server/src/Game.ts:60-63 | a join raises `numberOfPlayers` and `numberOfConnectedPlayers` by exactly one |
| GameSession.FlagCounts | packages/croc-game-server/src/Game.ts:79-148 | toggling `disconnected` leaves `numberOfPlayers` unchanged; the connected count drops by one when a connected player disconnects, rises by one when a disconnected player reconnects, and stays the same otherwise |
| GameSession.DeleteCounts | packages/croc-game-server/src/Game.ts:109-148 | a firing delete makes `numberOfPlayers` one less than the old roster size exactly when the player was still present, and lowers `numberOfConnectedPlayers` by one exactly when that player was present and connected |
| GameSession.SecondDisconnectOrphansTimer | packages/croc-game-server/src/Game.ts:108 | disconnecting an already disconnected player with a pending delete overwrites the recorded handle without cancelling the first delete, which leaves the timers out of step |
| GameSession.Game.constructor | packages/croc-game-server/src/Game.ts:35-49 | a new room has no players, no timers and nothing sent |
| GameSession.Game.NumberOfPlayers | packages/croc-game-server/src/Game.ts:140-142 | the key count equals the dictionary's size |
| GameSession.Game.NumberOfConnectedPlayers | packages/croc-game-server/src/Game.ts:144-148 | the count of players not marked disconnected; never above `numberOfPlayers` |
| GameSession.Game.FindPlayerByConnectionInfo | packages/croc-game-server/src/Game.ts:92-100 | finds a player exactly when the prior id is truthy and stored, and then the player stored under it |
| GameSession.Game.SendPlayer | packages/croc-game-server/src/Game.ts:116-122 | definition, no contract: one broadcast of the player's current record, nothing for an unknown id. The broadcast each caller makes is stated in the outbox ensures of `TryReconnect`, `ConnectPlayerWithInfo` and `DisconnectPlayerWithId` |
| GameSession.Game.SendAllPlayersTo | packages/croc-game-server/src/Game.ts:124-132 | definition, no contract: the records in key order, addressed to that one player. `ConnectPlayerWithInfo` states that this includes the newcomer, through `Roster.RecordsAppend` |
| GameSession.Game.SendDeletePlayer | packages/croc-game-server/src/Game.ts:134-138 | definition, no contract: one broadcast of the deletion of that id |
| GameSession.Game.NotifyAboutNewPlayer | packages/croc-game-server/src/Game.ts:150-152 | definition, no contract: one `'self'` notification carrying the new player's id and name |
| GameSession.Game.NotifyAboutDisconnectedPlayer | packages/croc-game-server/src/Game.ts:154-156 | definition, no contract: one `'self'` notification carrying the id |
| GameSession.Game.NotifyAboutDeletedPlayer | packages/croc-game-server/src/Game.ts:158-163 | definition, no contract: one `'self'` notification carrying the id |
| GameSession.Game.TryReconnect | packages/croc-game-server/src/Game.ts:72-90 | reconnects exactly when the lookup finds a player. It returns that id, clears the flag (name and score kept), broadcasts the record to all, and cancels and forgets the recorded delete. A failed lookup changes nothing. Timers in step stay in step, with no pending delete left for the id |
| GameSession.Game.ConnectPlayerWithInfo | packages/croc-game-server/src/Game.ts:53-70 | a reconnect as above, or a new join (a prior id that is absent or empty falls through). The join stores `Player(freshId, name, 0, connected)` and appends its key. It sends, in order: the full roster including the newcomer to the newcomer, the newcomer's record to all, and one new-player notification. Every other entry and the timers are unchanged |
| GameSession.Game.DisconnectPlayerWithId | packages/croc-game-server/src/Game.ts:102-114 | demands a present id. It sets the flag without removing the player, broadcasts the record, sends the disconnected notification, and arms and records a new delete without cancelling an older one |
| GameSession.Game.FireDelete | packages/croc-game-server/src/Game.ts:108-113 | removes exactly that id, from the dictionary and from the enumeration. It broadcasts the delete, then sends the deleted notification. The handle stops being pending but stays recorded |
| GameSession.DisconnectThenReconnect | packages/croc-game-server/src/Game.ts:53-114 | a disconnect of a connected player followed by its reconnect restores the roster, its order and the pending deletes |
| GameSession.OrphanedTimerScenario | packages/croc-game-server/src/Game.ts:83-113 | join, disconnect twice, then reconnect: after this the first delete still fires and deletes the reconnected player |
| BeforeRoundState.FirstConnected | packages/croc-game-server/src/states/BeforeRoundState.ts:58-62 | the index of the first key whose player is connected: every earlier one is disconnected |
| BeforeRoundState.ChooseLeader | packages/croc-game-server/src/states/BeforeRoundState.ts:58-62 | the first enumerated key whose player is connected; none exactly when every player is disconnected |
| BeforeRoundState.ResolveLeader | packages/croc-game-server/src/states/BeforeRoundState.ts:43 | the stored leader when set, else `chooseLeader`; none exactly when none is stored and nobody is connected |
| BeforeRoundState.ResolveWord | packages/croc-game-server/src/states/BeforeRoundState.ts:44 | definition, no contract: the stored word when truthy, else the word `pickWord()` returns (`chooseWord`, lines 64-66). Used in `StartWithLeader` and `PickWordFromPicker` |
| BeforeRoundState.StartRoundMessages | packages/croc-game-server/src/states/BeforeRoundState.ts:50-52 | definition, no contract: the three start-round sends in order. Their secrecy is proved by `StartRoundMessagesSecrecy` |
| BeforeRoundState.AfterStartNewRound | packages/croc-game-server/src/states/BeforeRoundState.ts:42-56 | definition, no contract: `startNewRound` on values. Its behaviour is proved by `StartWithoutLeader`, `StartWithLeader` and `StartNewRoundSecrecy` |
| BeforeRoundState.AfterStartTwoPlayerRound | packages/croc-game-server/src/states/BeforeRoundState.ts:36-40 | definition, no contract: unset the picker, then `AfterStartNewRound` |
| BeforeRoundState.AfterEnter | packages/croc-game-server/src/states/BeforeRoundState.ts:7-11 | definition, no contract: `handleEnter` on values. Its behaviour is proved by `EnterGate` |
| BeforeRoundState.AfterDisconnectedPlayer | packages/croc-game-server/src/states/BeforeRoundState.ts:13-21 | definition, no contract: `handleDisconnectedPlayer` on values. Its behaviour is proved by `DisconnectedPlayerBranches` |
| BeforeRoundState.AfterAction | packages/croc-game-server/src/states/BeforeRoundState.ts:23-34 | definition, no contract: `handleAction` on values. Its behaviour is proved by `ActionIgnored` and `PickWordFromPicker` |
| BeforeRoundState.ConnectedCountFindsLeader | packages/croc-game-server/src/states/BeforeRoundState.ts:58-62 | `chooseLeader` finds a player exactly when the connected count is positive |
| BeforeRoundState.StartWithoutLeader | packages/croc-game-server/src/states/BeforeRoundState.ts:42-46 | a round start sends nothing exactly when no leader resolves, and then changes nothing at all |
| BeforeRoundState.StartWithLeader | packages/croc-game-server/src/states/BeforeRoundState.ts:42-56 | with a leader: the word is the stored one when truthy, else `pickWord()`. The round is marked in progress and the tag becomes RoundInProgress. The three start records are sent. `leader` and `picker` are not written. The leader is the stored one, or a connected player |
| BeforeRoundState.StartRoundMessagesSecrecy | packages/croc-game-server/src/states/BeforeRoundState.ts:50-52 | the word travels in exactly one record, addressed to the leader alone. Every player is told the leader and receives a round start |
| BeforeRoundState.StartNewRoundSecrecy | packages/croc-game-server/src/states/BeforeRoundState.ts:42-56 | earlier sends are kept as a prefix, and of the appended records only those reaching the resolved leader carry the word |
| BeforeRoundState.EnterGate | packages/croc-game-server/src/states/BeforeRoundState.ts:7-40 | `handleEnter` changes nothing unless exactly two players are connected. At two it unsets the picker and starts a round with the resolved leader and word |
| BeforeRoundState.DisconnectedPlayerBranches | packages/croc-game-server/src/states/BeforeRoundState.ts:13-40 | below two connected players: back to Wait, and this state itself sends nothing (the entered `WaitState` may send). At two: the outcome is exactly that of `handleEnter` (`AfterEnter`): the picker is unset and a round starts, with the word and start records `EnterGate` states. Above two: nothing. This state sends exactly at two, so the two branches never both act |
| BeforeRoundState.ActionIgnored | packages/croc-game-server/src/states/BeforeRoundState.ts:23-34 | a word pick from anyone but the picker, and any other action, changes nothing |
| BeforeRoundState.PickWordFromPicker | packages/croc-game-server/src/states/BeforeRoundState.ts:25-56 | a pick by the picker starts a round with the payload, or with `pickWord()` when the payload is empty or missing. With no leader, only the stored word changes |
| BeforeRoundState.Context.NumberOfConnectedPlayers | packages/croc-game-server/src/Game.ts:144-148 | the room's connected count as the state reads it: the `Game` count of players not marked disconnected (see "## Left out" on `CrocGameData`) |
| BeforeRoundState.Context.constructor | packages/croc-game-server/src/states/BeforeRoundState.ts:6 | a room in this state over a well-formed roster, before anything is sent |
| BeforeRoundState.StartNewRound | packages/croc-game-server/src/states/BeforeRoundState.ts:42-56 | the new room data is `AfterStartNewRound` of the old |
| BeforeRoundState.StartTwoPlayerRound | packages/croc-game-server/src/states/BeforeRoundState.ts:36-40 | the new room data is `AfterStartTwoPlayerRound` of the old: the picker is unset, then a round starts |
| BeforeRoundState.HandleEnter | packages/croc-game-server/src/states/BeforeRoundState.ts:7-11 | the new room data is `AfterEnter` of the old |
| BeforeRoundState.HandleDisconnectedPlayer | packages/croc-game-server/src/states/BeforeRoundState.ts:13-21 | the new room data is `AfterDisconnectedPlayer` of the old |
| BeforeRoundState.HandleAction | packages/croc-game-server/src/states/BeforeRoundState.ts:23-34 | the new room data is `AfterAction` of the old |
| ChatMessages.Reduce | packages/croc-client/src/modules/chatMessages.ts:8-20 | definition, no contract: the `reducer`. Its behaviour is proved by the lemmas below |
| ChatMessages.NewMessages | packages/croc-client/src/modules/chatMessages.ts:11-15 | definition, no contract: the payload, stamped when the sync data names a sender |
| ChatMessages.Stamp | packages/croc-client/src/modules/chatMessages.ts:13-15 | same length; each message keeps its text and position, and takes the sender as `from` |
| ChatMessages.OtherActionKeepsState | packages/croc-client/src/modules/chatMessages.ts:8-19 | any other action returns the state, or the empty list for a missing state |
| ChatMessages.AddAppends | packages/croc-client/src/modules/chatMessages.ts:17 | adding keeps the old list as a prefix and grows it by the payload's length |
| ChatMessages.AddStampsSender | packages/croc-client/src/modules/chatMessages.ts:11-17 | with a sender, the i-th appended message has the i-th payload text and the sender as `from` |
| ChatMessages.AddVerbatim | packages/croc-client/src/modules/chatMessages.ts:11-17 | without a sender, the payload is appended verbatim |
| ChatMessages.MissingStateIsEmpty | packages/croc-client/src/modules/chatMessages.ts:8 | a missing state behaves as the empty list |
| ChatMessages.TwoAdds | packages/croc-client/src/modules/chatMessages.ts:8-17 | two adds in a row give the state, then the first add's messages, then the second's |

## Left out

- Real time: `delayCall` and the reconnection timeout become explicit events. A delete armed by a disconnect is a handle in `pending`, and it fires only when `FireDelete` is called on it. Cancelling takes the handle out of `pending`, so a cancelled delete can never fire.
- `uuid()`: the caller supplies the new id as `freshId`, which must not name a present player.
- Array-index keys: `Object.keys` lists keys such as "0" or "17" in numeric order before the others. The model assumes no id is such a string, as no `uuid()` string is, so the key order is insertion order.
- DisconnectPlayerWithId: for an id missing from the roster, the source throws a TypeError at `this.data.players[id].disconnected = true`. The model demands a present id instead, so it does not capture that throw. The throw is reachable: after `OrphanedTimerScenario`, the orphaned delete has removed a connected player, and when that player's connection then closes, the source would crash.
- The `Game` constructor takes its data from the injected `gameDataInitializer()`. The model assumes that this returns an empty roster.
- Message construction and transport (`addPlayersMessageCreator`, `deletePlayerMessageCreator`, `createNewPlayerMessage`, `buildActionMessage`, the responder's queues): each call becomes one abstract `Send` record, holding its target, its tag and the payload that matters.
- Aliasing: `sendAllPlayersTo` hands the responder the live record objects, and a later change to a record would show through them; the model records values.
- The `handleMessage` hook that receives the `'self'` notifications is a no-op in this base class. Each notification is recorded as a `Notify` record, and its handling in the game subclass is not part of this model.
- JavaScript lookups of keys inherited from `Object.prototype` (ids such as `"constructor"`) are not modelled: the roster is a plain map.
- `unsetPicker` is modelled as clearing `picker`; whatever else it does lives in `CrocGameState`, which is not part of this model.
- `setState`: only the state tag change is modelled. The `handleEnter` of `WaitState` and of `RoundInProgressState` are not part of this model.
- `pickWord`: it is injected, so the word it would return is a parameter (`picked`). The source calls it whenever the stored word is falsy, before the leader test, so it runs even when no round starts. The model shows neither that call nor any effect it has.
- The record of a new player has no `disconnected` property in the source (`{ id, name, score: 0 }`); the model stores `disconnected := false`. Every read in the core tests `!disconnected`, so the two behave alike there, but the broadcast records in the source lack the field.
- `CrocGameData.numberOfConnectedPlayers`, which `BeforeRoundState` reads, is modelled as the `Game` count (`Context.NumberOfConnectedPlayers`). The model assumes the two count the same way.
- `GameContext`, `CrocGameData`, `CrocGame.handleMessage` and the other round states (chat and drawing relays, answer checking, scoring, picker rotation) are not part of this model.
- Concurrency: the JavaScript engine runs one handler at a time, so events are modelled as a sequence of calls.

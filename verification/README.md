# Pong match core, modelled in Dafny

This project models the game core of a multiplayer Pong web application:

- **The authoritative server simulation** (`GameState`, module `PongState`). The ball and the paddles live on the unit square. Each tick the ball moves, bounces off the walls and meets the left paddle check and then the right one. A miss gives one point to the opposite side and re-centres the ball. Speed mode makes paddle hits 1.25 times faster and is cleared by a point.
- **The match lifecycle service** (module `MatchService`). It runs over an in-memory store: a map of Game records, a map of User records, and the order in which games were created. It creates and joins games, records a final result (with the winner rule and the winner's "expert" flag), maintains the users' "playing" flags, and answers the matchmaking queries (first open PUBLIC game, next queue position, a user's PAUSE or LIVE game).
- **The socket gateway** (module `MatchGateway`). It keeps the room registry: `gameStates` and `gameLoops`, plus the set of timers still firing, each with the `GameState` its callback captured. It has the tick callback, connection, reconnection and disconnection handling, the request handlers (`createAnInviteGame`, `joinInvitation`, `joinGame`) with their `{ok, statusText}` answers, and the `startPowerUp` and `paddleMove` messages. Room broadcasts are appended to an event log.
- **The client-side prediction physics** (module `ClientGame`). It works on a pixel canvas of positive size with the tuning constants as parameters, and mutates a shared `VarGame` object. Unlike the server, the client's wall bounce looks at the direction of travel, a paddle rebound sets the horizontal direction from the side rather than flipping it, paddle moves are range-checked, and the client ends a match at 11. The messages the client sends (`storeScore`, `move`, `startPowerUp`) are returned by the methods.
- **The player-list predicates** (module `PlayerList`): friend, blocked and "other" membership by id, and the three sections of the list built from them.

Each stateful entity is a class whose fields are the source's fields, or the state they reach (the store behind the service, the timers and emitted events behind the gateway). Its methods are proved against pure functions over a value of those fields (`Model()`), and the lemmas state what those functions promise.

Behaviour of the code worth knowing:

- The owner wins a recorded result iff `scoreR > scoreL`. The right score decides, and a tie goes to the other player.
- The winner's expert flag is computed after the game record already names them as winner. It is therefore always set, from the first win on.
- Starting the loop of a room that already has one reuses the state but schedules a second timer. The first timer is overwritten in the registry and never cleared, so two timers then advance the same state.
- `joinInvitation` does not look at the `full` flag, so a third player can be added to a game.
- A failure while creating an invitation game is answered with `ok` set to true.
- `updatePaddlePosition` ignores a zero coordinate, because it tests the value for truthiness.
- A disconnect clears the room's timer but keeps both registry entries.

## Model

| member | source | states |
|---|---|---|
| PongState.Initial | backend/src/game/game.state.ts:15-24 | a fresh state has both paddles at 0.5, scores 0, the ball at (0.5 - 0.00625, 0.5), speeds 0.005 and speed mode off |
| PongState.GameState.constructor | backend/src/game/game.state.ts:15-24 | the constructed object's fields are exactly the fresh state |
| PongState.Recentred | backend/src/game/game.state.ts:79-87 | after the reset the ball is centred with the default speeds and speed mode off; paddles and scores are kept |
| PongState.GameState.ResetBallPositionAndSpeed | backend/src/game/game.state.ts:79-87 | the method leaves the object in the reset state of its previous fields |
| PongState.Collide | backend/src/game/game.state.ts:56-77 | a hit reverses the horizontal direction, sends the ball up off the upper half of the paddle and down off the lower half, scales both speeds by 1.25 iff speed mode is on, and keeps position and scores; a miss past the boundary gives exactly one point to the opposite side and re-centres; otherwise nothing changes; paddles never move |
| PongState.GameState.HandlePaddleCollision | backend/src/game/game.state.ts:56-77 | the method's new state is the collision rule applied to the old state |
| PongState.Advance | backend/src/game/game.state.ts:26-33 | one tick never lowers a score, adds at most one point in total, keeps the paddles, never switches speed mode on, keeps it unless a point is scored, and after a point leaves the ball centred |
| PongState.GameState.Update | backend/src/game/game.state.ts:26-33 | the method's new state is one tick (move, wall bounce, left paddle, right paddle) of the old one |
| PongState.RunInvariants | backend/src/game/game.state.ts:26-33 | over n ticks scores never decrease and grow by at most n, paddles stay, speed mode is never switched on, and if it went off a point was scored |
| PongState.NoEarlyWin | backend/src/game/game.state.ts:15-33 | from a fresh state neither side can reach three points in fewer than three ticks |
| PongState.SetPaddles | backend/src/game/game.state.ts:35-38 | each nonzero coordinate replaces its paddle, a zero one leaves it, and nothing else changes |
| PongState.GameState.UpdatePaddlePosition | backend/src/game/game.state.ts:35-38 | the method's new state is the paddle update of the old one |
| PongState.WithSpeedMode | backend/src/game/game.state.ts:40-42 | the speed flag becomes old flag or argument, so it can be switched on but never off, and nothing else changes |
| PongState.GameState.UpdateSpeedMode | backend/src/game/game.state.ts:40-42 | the method's new state is the speed-mode update of the old one |
| PongState.GameState.GetState | backend/src/game/game.state.ts:44-54 | the snapshot carries ball position, both paddles, both scores and the speed flag of the object, and changes nothing |
| MatchService.FirstOther | backend/src/game/game.service.ts:77 | the result is the first player different from the given one, and none iff every player is that one |
| MatchService.WinnerOf | backend/src/game/game.service.ts:77 | the owner is the winner iff scoreR > scoreL; otherwise the first non-owner player |
| MatchService.TieGoesToOpponent | backend/src/game/game.service.ts:77 | in a two-player game a tie is won by the non-owner |
| MatchService.RecordResult | backend/src/game/game.service.ts:63-109 | a failure leaves the store unchanged; a success is the stored record, ENDED and finished, with every other game unchanged |
| MatchService.RecordResultSpec | backend/src/game/game.service.ts:63-109 | an empty id, a missing game and a missing or unknown winner leave the store unchanged with their errors, and a stored game succeeds iff the winner rule names a known user; a success stores the ended record (both scores, finished, ENDED, the winner of the rule, everything else kept) and sets the users to the old ones with the winner's expert flag set and the first two players' playing flags cleared |
| MatchService.GameService.WriteResult | backend/src/game/game.service.ts:79-99 | the game record is replaced by the ended one, then the winner's expert flag is set from the updated games; order and consistency are kept |
| MatchService.GameService.StoreScore | backend/src/game/game.service.ts:63-109 | the method's result and new store are the recorded-result function of the old store |
| MatchService.GameService.ReleasePlayers | backend/src/game/game.service.ts:101-102 | the users become the old ones with the first two players' playing flags cleared; games are unchanged |
| MatchService.ClearFirstTwo | backend/src/game/game.service.ts:101-102 | the first two players are no longer playing and every other record is unchanged |
| MatchService.SetPlaying | backend/src/game/game.service.ts:111-119 | the user's playing flag is the given value, the rest of that record and all other users are unchanged, and an unknown user changes nothing |
| MatchService.GameService.UpdateUserPlaying | backend/src/game/game.service.ts:111-119 | the users map becomes the playing-flag update of the old one; games are unchanged |
| MatchService.GameService.RemoveUserPlaying | backend/src/game/game.service.ts:121-129 | the user's playing flag is cleared; games are unchanged |
| MatchService.GameService.UpdatePlaying | backend/src/game/game.service.ts:189-194 | the user's playing flag is set; games are unchanged |
| MatchService.GameService.constructor | backend/src/game/game.service.ts:8-12 | the service starts over an empty game store and the given users |
| MatchService.GameService.CreateGame | backend/src/game/game.service.ts:14-31 | an unknown user fails and changes nothing; otherwise a new game owned by the user, with the user as sole player, at the given position, of the given kind, SPEED iff requested, is added last; the record is stated field by field, with the assumed store defaults for status, full, finished, scores and winner (PAUSE, not full, not finished, 0 and 0, none) |
| MatchService.Joined | backend/src/game/game.service.ts:33-61 | the joined record lists the user (appended once, the earlier players kept in order), is full, is LIVE iff its first player is a playing user and PAUSE otherwise, and keeps every other field |
| MatchService.GameService.AddUserToGame | backend/src/game/game.service.ts:33-61 | a missing game or user fails and changes nothing; otherwise only that game changes, to its joined record |
| MatchService.GameService.UpdateGameStatus | backend/src/game/game.service.ts:163-171 | an existing game gets the new status and nothing else changes; a missing one fails |
| MatchService.GameService.PauseGame | backend/src/game/game.service.ts:182-187 | an existing game becomes PAUSE and nothing else changes; a missing one fails |
| MatchService.GameService.SetModeSpeed | backend/src/game/game.gateway.ts:264-267 | an existing game's mode becomes SPEED and nothing else changes; a missing one fails |
| MatchService.FirstOpenPublic | backend/src/game/game.service.ts:131-136 | a non-full PUBLIC game with none listed before it, none iff there is no such game |
| MatchService.GameService.GetLowestPositionGame | backend/src/game/game.service.ts:131-136 | the result is a stored non-full PUBLIC game, and none iff no game is both |
| MatchService.MaxPosition | backend/src/game/game.service.ts:138-144 | the result bounds every listed position and is attained, none iff the list is empty |
| MatchService.GameService.GetNextPosition | backend/src/game/game.service.ts:138-144 | 1 for an empty store, otherwise one more than the largest position in use |
| MatchService.FirstWith | backend/src/game/game.service.ts:146-161 | a listed game of the given status that has the user as a player with no such game listed before it, none iff there is no such game |
| MatchService.GameService.GetUserGames | backend/src/game/game.service.ts:146-161 | a stored PAUSE game listing the user, none iff the user is unknown or has no such game |
| MatchService.GameService.GetActiveGames | backend/src/game/game.service.ts:173-180 | a stored LIVE game listing the user, none iff the user is unknown or has no such game |
| MatchService.GameService.IsUserInLiveGame | backend/src/game/game.service.ts:196-207 | true iff some LIVE game lists the user |
| MatchService.GameService.IsUserPlaying | backend/src/game/game.service.ts:209-222 | the stored playing flag, false for an unknown user |
| MatchService.LiveGameIsActive | backend/src/game/game.service.ts:173-207 | a user found in a LIVE game also has an active game to pause |
| MatchGateway.GameGateway.constructor | backend/src/game/game.gateway.ts:23-31 | both registries, the timers and the event log start empty |
| MatchGateway.GameGateway.StartGameLoop | backend/src/game/game.gateway.ts:33-52 | a room without a state gets a fresh one, an existing state is reused with its scores, and a new timer, firing on that state, replaces the room's handle while earlier timers keep running |
| MatchGateway.GameGateway.StopGameLoop | backend/src/game/game.gateway.ts:54-61 | with a registered timer the timer is cleared and both registry entries removed; without one nothing changes |
| MatchGateway.GameGateway.Tick | backend/src/game/game.gateway.ts:41-49 | the captured state advances one tick; at exactly 3 points the result is recorded and the room's loop stopped; the snapshot is emitted to the room in every case |
| MatchGateway.GameGateway.HandleConnection | backend/src/game/game.gateway.ts:66-80 | an unresolved token is answered with an error and changes nothing; a user is reconnected |
| MatchGateway.ReconnectionStatus | backend/src/game/game.gateway.ts:90-94 | LIVE iff the first other player is known, playing and online, else PAUSE |
| MatchGateway.ReconnectionLiveIffOpponentActive | backend/src/game/game.gateway.ts:90-94 | in a game of at most two players that lists the user, the status is LIVE iff some other player is active |
| MatchGateway.GameGateway.HandleReconnection | backend/src/game/game.gateway.ts:82-111 | without a PAUSE game nothing changes; otherwise only that game changes, to the reconnection status, the user is marked playing, the game is emitted to the room, and when LIVE the loop is started as startGameLoop starts it (state reused or fresh, a new timer) while otherwise the registries are untouched |
| MatchGateway.GameGateway.ResumePaused | backend/src/game/game.gateway.ts:89-107 | the paused game takes the reconnection status and nothing else in the store changes but the user's playing flag; the loop is started iff LIVE and the refreshed game is emitted |
| MatchGateway.GameGateway.ResumeInStore | backend/src/game/game.gateway.ts:97-98 | the game gets the new status, every other game is unchanged, and the user is marked playing |
| MatchGateway.GameGateway.HandleDisconnect | backend/src/game/game.gateway.ts:113-134 | a missing or empty user changes nothing; otherwise the user stops playing, and a LIVE game of theirs is paused, its timer cleared with the registry kept, and the opponent notified |
| MatchGateway.GameGateway.PauseOnDisconnect | backend/src/game/game.gateway.ts:123-130 | the game becomes PAUSE, the user stops playing, the room's timer is cleared and the paused game is emitted |
| MatchGateway.GameGateway.CreateRoom | backend/src/game/game.gateway.ts:136-183 | an inviter who is playing, an invitee who is playing and an inviter in a LIVE game are refused in that order with their messages and nothing changes; otherwise the exact new record (the inviter as owner and sole player, PRIVATE, CLASSIC, position 5000, the assumed defaults for status, full, finished, scores and winner) is added, the inviter marked playing, and the creation and invitation emitted; a store failure (unknown inviter) answers ok and changes neither store nor events |
| MatchGateway.GameGateway.JoinInvitation | backend/src/game/game.gateway.ts:185-206 | a user in a LIVE game is refused; a missing game or user answers not ok with the store's error text and changes nothing; otherwise only that game changes, to its joined record (LIVE iff the first player is playing), the user is marked playing, the join is emitted and the loop started as startGameLoop starts it |
| MatchGateway.GameGateway.JoinAndStart | backend/src/game/game.gateway.ts:196-201 | a missing game or user fails with its error and changes nothing; otherwise the game takes its joined record, the user is marked playing, the joined game is emitted and the room's loop started |
| MatchGateway.GameGateway.JoinGame | backend/src/game/game.gateway.ts:208-252 | a user in a LIVE game is refused; an unknown user gets the database error; with an open PUBLIC game only that game changes, to its joined record, and its loop starts; otherwise the exact new record (the user as owner and sole player, PUBLIC, CLASSIC, the next position, the assumed defaults for the other fields) is added with no loop |
| MatchGateway.GameGateway.JoinOpenGame | backend/src/game/game.gateway.ts:224-234 | a known user turns the open game into its joined record (nothing else in the store changes but the user's playing flag), the join is emitted and the loop started as startGameLoop starts it; an unknown user gets the database error and nothing changes |
| MatchGateway.GameGateway.OpenNewGame | backend/src/game/game.gateway.ts:237-248 | a known user gets the exact new record (owner and sole player, PUBLIC, CLASSIC, the next position, the assumed defaults for the other fields), is marked playing and the game is emitted, with no loop started; an unknown user gets the database error and nothing changes |
| MatchGateway.GameGateway.StartPowerUp | backend/src/game/game.gateway.ts:254-270 | without a state for the room nothing changes; otherwise speed mode is requested on the state, and the stored game becomes SPEED and is emitted |
| MatchGateway.GameGateway.PaddleMove | backend/src/game/game.gateway.ts:272-283 | with a state for the room its paddles take the update; otherwise nothing changes |
| ClientGame.SpeedsFor | front/src/features/game/utils/utilsGame.ts:95-107 | outside speed mode the speeds are the tuned fractions of canvas width and height |
| ClientGame.SpeedModeScales | front/src/features/game/utils/utilsGame.ts:95-107 | speed mode multiplies both speeds by the speed-up factor, and a factor of at least 1 never makes them slower |
| ClientGame.SpeedReset | front/src/features/game/utils/utilsGame.ts:109-113 | the vertical speed is the base one and the horizontal one the base one times the side factor; nothing else changes |
| ClientGame.ResetBallSpeed | front/src/features/game/utils/utilsGame.ts:109-113 | the method's new state is the speed reset of the old one |
| ClientGame.PointScored | front/src/features/game/utils/utilsGame.ts:163-177 | one point to the side opposite the missed paddle, the ball in the middle column at the top or bottom edge, and nothing else changes |
| ClientGame.HandlePointScored | front/src/features/game/utils/utilsGame.ts:163-177 | the method's new state is the point rule applied to the old one |
| ClientGame.Rebound | front/src/features/game/utils/utilsGame.ts:63-72 | after a hit the horizontal speed is the absolute speed in the direction away from the paddle and the vertical one points away from the struck half, both scaled in speed mode; position and scores unchanged |
| ClientGame.ReboundDirections | front/src/features/game/utils/utilsGame.ts:63-72 | with a positive speed-up factor the left paddle sends the ball right and the right paddle sends it left, whatever its direction before |
| ClientGame.Miss | front/src/features/game/utils/utilsGame.ts:73-78 | a miss scores for the opposite side, re-centres the ball, serves it with the base speeds towards the side that scored (a left miss serves right), clears speed mode and keeps the paddles |
| ClientGame.Collide | front/src/features/game/utils/utilsGame.ts:63-85 | a hit never scores, a miss past the paddle without a hit adds exactly one point, nothing else changes the state, and the paddles never move |
| ClientGame.MissReports | front/src/features/game/utils/utilsGame.ts:73-85 | a non-final score report with the new scores is sent iff the ball went past the paddle without a hit |
| ClientGame.HandlePaddleCollision | front/src/features/game/utils/utilsGame.ts:45-86 | the method's new state is the hit, miss or no-op rule of the old one, and it sends the miss report |
| ClientGame.BounceOffPaddle | front/src/features/game/utils/utilsGame.ts:63-72 | the method's new state is the rebound of the old one |
| ClientGame.ServeAfterMiss | front/src/features/game/utils/utilsGame.ts:73-78 | the method's new state is the miss rule applied to the old one |
| ClientGame.WallBounce | front/src/features/game/utils/utilsGame.ts:88-93 | the vertical speed flips iff the ball is moving into a wall it has reached, otherwise nothing changes |
| ClientGame.WallBounceIdempotent | front/src/features/game/utils/utilsGame.ts:88-93 | on a canvas at least one ball high, a second wall check right after the first changes nothing |
| ClientGame.CheckWallCollision | front/src/features/game/utils/utilsGame.ts:88-93 | the method's new state is the wall rule of the old one |
| ClientGame.CollisionStep | front/src/features/game/utils/utilsGame.ts:115-126 | a collision step never lowers a score, scores at most one point in total (a left miss re-centres the ball out of the right paddle's reach), and never moves a paddle |
| ClientGame.CollisionReports | front/src/features/game/utils/utilsGame.ts:115-126 | one non-final score report for the room, without winner, per point scored in the step |
| ClientGame.CheckCollision | front/src/features/game/utils/utilsGame.ts:115-126 | the method applies the left paddle, the right paddle and the wall rules in that order and sends the left then the right miss report |
| ClientGame.Calculated | front/src/features/game/utils/utilsGame.ts:139-158 | only the host advances the ball by its speed; at 11 points both scores go to 0 and both paddles to mid-height; speeds and speed mode are unchanged |
| ClientGame.CalculationReports | front/src/features/game/utils/utilsGame.ts:144-160 | a final score report naming the left player iff the left score is 11 is sent iff a score is 11, and the host, and only the host, then sends its move as written |
| ClientGame.Calculation | front/src/features/game/utils/utilsGame.ts:128-161 | the method's new state and messages are those of the calculation rule |
| ClientGame.MoveAsWritten | front/src/features/game/utils/utilsGame.ts:179-193 | the move message as written carries the ball's x position in its x-speed field |
| ClientGame.MoveAsWrittenLosesSpeed | front/src/features/game/utils/utilsGame.ts:185 | a ball at x 0.5 moving at 0.01 on a unit canvas is reported as moving at 0.5 |
| ClientGame.MoveAsWrittenRoundTrip | front/src/features/game/utils/utilsGame.ts:179-193 | from the message as written a receiver that knows the canvas recovers position, vertical speed, paddles, scores and speed flag, and recovers the horizontal speed iff it equals the ball's x position |
| ClientGame.MoveMessage | front/src/features/game/utils/utilsGame.ts:179-193 | the corrected move is a move for the room from the user carrying the scores and the speed flag |
| ClientGame.MoveRoundTrip | front/src/features/game/utils/utilsGame.ts:179-193 | from the corrected move a receiver that knows the canvas recovers ball position, both speeds, paddles, scores and speed flag |
| ClientGame.EmitMove | front/src/features/game/utils/utilsGame.ts:179-193 | the message built is the move as written of the object's current state |
| ClientGame.PaddleMoved | front/src/features/game/utils/utilsGame.ts:204-212 | a coordinate in [-padH/2, height] replaces the chosen paddle only; any other leaves everything unchanged |
| ClientGame.MovePaddle | front/src/features/game/utils/utilsGame.ts:195-213 | the method's new state is the guarded paddle move, and the move as written of the new state is sent iff the coordinate was accepted |
| ClientGame.HandlePowerUp | front/src/features/game/utils/utilsGame.ts:215-227 | speed mode is on and nothing else changes; the power-up request and the move as written are sent |
| PlayerList.HasId | front/src/features/players/PlayerList.tsx:92 | true iff some player in the list has the given id |
| PlayerList.UserIsFriend | front/src/features/players/PlayerList.tsx:91-96 | false for a missing user or list, else true iff some friend has the user's id |
| PlayerList.UserIsBlocked | front/src/features/players/PlayerList.tsx:98-103 | false for a missing user or list, else true iff some blocked player has the user's id |
| PlayerList.UserIsOther | front/src/features/players/PlayerList.tsx:105-110 | true iff the user's id is in neither list |
| PlayerList.Filter | front/src/features/players/PlayerList.tsx:175-181 | the result holds exactly the players of the input that satisfy the test |
| PlayerList.SectionsCoverPlayers | front/src/features/players/PlayerList.tsx:175-181 | every player appears in some section, Other players is disjoint from the other two, and a player in both lists appears under Friends and Blocked but not Other |

## Findings

| source | as written | input that shows it | evidently intended | confidence | as-written member | corrected member |
|---|---|---|---|---|---|---|
| front/src/features/game/utils/utilsGame.ts:185 | the `xSpeed` field of the `move` message is the ball's x position divided by the width | a ball at x 0.5 moving at 0.01 on a unit canvas is sent with xSpeed 0.5 | the ball's x speed divided by the width, like the other fields | not executed; high | ClientGame.MoveAsWrittenLosesSpeed | ClientGame.MoveRoundTrip |

The client methods (`EmitMove`, `Calculation`, `MovePaddle`, `HandlePowerUp`) send the message as written, `ClientGame.MoveAsWritten`; `ClientGame.MoveAsWrittenRoundTrip` states exactly what a receiver loses. `ClientGame.MoveMessage` is the corrected message, and `ClientGame.MoveRoundTrip` proves it loses nothing.

## Left out

- Socket.io rooms, joins and client disconnects are not modelled; room broadcasts are appended to an event log and request answers are returned.
- Resolving the JWT to a user is not modelled; `HandleConnection` receives its result as an optional user id.
- The `playersStatusUpdate` presence broadcasts and the `console.error` logging are left out.
- Timing is not modelled: the 60 Hz `setInterval` cadence and the interleaving of ticks with messages. One firing of a timer is the explicit step `Tick`.
- Calls the source does not await are modelled as completing immediately, in program order.
- The relational store is a map-based store. `findFirst` without an order meets games in creation order, and `take: 1` takes the first match in that order.
- A game's `players` are a sequence in join order; the store's `include` promises no order. This matters only for `players[0]` in `AddUserToGame`/`Joined` (whose playing flag decides LIVE) and for `ClearFirstTwo` once a third player has joined by invitation.
- Numbers are mathematical reals, so no claim is made about IEEE-754 rounding.
- `Math.random()` is the parameter `rnd` in [0, 1). `rnd % 2` is then `rnd` itself, so the ball goes to the bottom edge unless the draw is exactly 0.
- The client `CONSTANTS` module is not part of this model. Its three speed factors are the `Tuning` parameter, and the canvas size is the `Canvas` parameter.
- `handleDraw` (p5 drawing) and the React state setters (`setModeSpeed`, `setGameStatus`, `setWinner`) are left out.
- The rendering, hooks and friend-list fetching of the player list are left out.
- The "Connection error" and "reconnection_error" catch paths are left out: no store operation on those paths can fail in this model.
- `storeScore` on a game with a single player calls `removeUserPlaying(undefined)` in an unawaited call that fails on its own. The model clears only the players that exist.
- The `!updatedUser` test of `joinInvitation` tests a promise, which is always truthy, so it never fires. The `!game`/`!updatedGame` tests are dead too, because the store either returns a record or throws. The branches they guard are left out.
- The assignment to `createGameResponse.statusText` in `createRoom` sets a property of a function and does not affect the answer, so it is not modelled.
- MatchGateway.GameGateway.HandleConnection: for a resolved user its contract states only that the store stays consistent; the reconnection itself is stated by `HandleReconnection`.
- The exception texts of the store are the `ErrorMessage` strings ("Game not found", "User not found", "Winner not found"); the store layer that raises them is not part of this model.
- A new game record's status, `full`, `finished`, scores and winner are not set by `createGame`. They come from the store's column defaults, and the schema is not part of this model; the model assumes PAUSE, not full, not finished, scores 0 and no winner (`DefaultStatus` and the `CreateGame` contract).
- A record update on an unknown user id throws in the store; `SetPlaying` and the methods built on it (`UpdateUserPlaying`, `RemoveUserPlaying`, `UpdatePlaying`) treat it as a no-op instead. `UserIsOther` takes two plain lists, so the TypeError the source raises on a missing list is not modelled, and the `gameSocket?.` null guard of the client emits is not modelled (every message is sent).
- The client's power-up request carries the room under the key `roomId` (utilsGame.ts:225), while the server's `startPowerUp` reads `data.room` (game.gateway.ts:256); the model does not connect the two sides and `StartPowerUp` takes the room as a parameter.
- ClientGame.Calculation: the winner in the final score report is the user's nickname, not the whole user record.

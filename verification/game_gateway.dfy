/**
 * The room registry and the message handlers of backend/src/game/game.gateway.ts.
 *
 * `gameStates` and `gameLoops` are the two registry maps of the source. A
 * timer is an opaque handle; `intervals` holds the timers that are still
 * firing, each with the room and the `GameState` object its callback captured,
 * so that `Tick(t)` is one run of that callback. Socket emits are appended to
 * `events`; joining sockets to rooms is not modelled.
 */
module MatchGateway {
  import opened Wrappers
  import opened PongState
  import opened MatchService

  type RoomId = GameId
  type Timer = nat

  /** The score that ends a match on the server. */
  const WinningScore: nat := 3
  /** The queue position of every invitation game. */
  const InvitePosition: int := 5000

  /** A running `setInterval` callback: the room and the state object it captured. */
  datatype Interval = Interval(room: RoomId, state: GameState)

  /** What the gateway emits: to a room, or (the last one) to the calling client only. */
  datatype Event =
    | GameStateUpdate(room: RoomId, snapshot: Snapshot)
    | JoinedGame(room: RoomId, game: Game)
    | CreatedGame(room: RoomId, game: Game)
    | InvitedPlayer(room: RoomId, nickname: string)
    | OpponentDisconnected(room: RoomId, game: Game)
    | UpdateMode(room: RoomId, game: Game)
    | ClientError(message: string)

  /** The `{ok, statusText}` answer of the request handlers. */
  datatype Response = Response(ok: bool, statusText: string)

  /** The message an exception carries into a response. */
  function ErrorMessage(e: Error): string {
    match e
    case InvalidGameId => "Invalid game ID"
    case GameNotFound => "Game not found"
    case UserNotFound => "User not found"
    case WinnerNotFound => "Winner not found"
  }

  /** The other player is known, marked playing and online. */
  predicate Active(users: map<UserId, User>, o: UserId) {
    o in users && users[o].isPlaying && users[o].online
  }

  /** The status a paused game takes when `u` reconnects: LIVE iff the first other player is active. */
  function ReconnectionStatus(g: Game, users: map<UserId, User>, u: UserId): (s: Status)
    ensures s == LIVE <==> FirstOther(g.players, u).Some? && Active(users, FirstOther(g.players, u).value)
    ensures s == PAUSE <==> !(FirstOther(g.players, u).Some? && Active(users, FirstOther(g.players, u).value))
  {
    var other := FirstOther(g.players, u);
    if other.Some? && Active(users, other.value) then LIVE else PAUSE
  }

  /**
   * In a game of at most two players that lists `u`, reconnection makes the
   * game LIVE exactly when some other player is active.
   */
  lemma ReconnectionLiveIffOpponentActive(g: Game, users: map<UserId, User>, u: UserId)
    requires u in g.players && |g.players| <= 2
    ensures ReconnectionStatus(g, users, u) == LIVE <==>
      exists o :: o in g.players && o != u && Active(users, o)
  {
    var other := FirstOther(g.players, u);
    if other.Some? {
      forall o | o in g.players && o != u
        ensures o == other.value
      {
        var j :| 0 <= j < |g.players| && g.players[j] == other.value && other.value != u
                  && forall i :: 0 <= i < j ==> g.players[i] == u;
        var k :| 0 <= k < |g.players| && g.players[k] == u;
        var m :| 0 <= m < |g.players| && g.players[m] == o;
        assert m != k && j != k;
      }
    } else {
      forall o | o in g.players
        ensures o == u
      {
        var m :| 0 <= m < |g.players| && g.players[m] == o;
      }
    }
  }

  class GameGateway {
    const service: GameService
    var gameStates: map<RoomId, GameState>
    var gameLoops: map<RoomId, Timer>
    var intervals: map<Timer, Interval>
    var nextTimer: Timer
    var events: seq<Event>

    /** The store is consistent and every handle in use was issued before `nextTimer`. */
    ghost predicate Valid()
      reads this, service
    {
      && service.Valid()
      && (forall t :: t in intervals ==> t < nextTimer)
      && (forall r :: r in gameLoops ==> gameLoops[r] < nextTimer)
    }

    constructor (s: GameService)
      requires s.Valid()
      ensures Valid() && service == s
      ensures gameStates == map[] && gameLoops == map[] && intervals == map[] && events == []
    {
      service := s;
      gameStates := map[];
      gameLoops := map[];
      intervals := map[];
      nextTimer := 0;
      events := [];
    }

    /**
     * What startGameLoop leaves behind for `room`: the state it already had,
     * scores included, or a fresh initial one; a new timer, registered for the
     * room in place of any previous handle, firing on that state.
     */
    twostate predicate LoopStarted(room: RoomId)
      reads this`gameStates, this`gameLoops, this`intervals
      reads if room in gameStates then {gameStates[room]} else {}
    {
      && room in gameStates && room in gameLoops
      && (room in old(gameStates) ==>
            gameStates == old(gameStates) && gameStates[room].Model() == old(gameStates[room].Model()))
      && (room !in old(gameStates) ==>
            fresh(gameStates[room]) && gameStates[room].Model() == Initial()
            && gameStates == old(gameStates)[room := gameStates[room]])
      && gameLoops[room] !in old(intervals)
      && gameLoops == old(gameLoops)[room := gameLoops[room]]
      && intervals == old(intervals)[gameLoops[room] := Interval(room, gameStates[room])]
    }

    /**
     * startGameLoop: creates a state only for a room that has none (an existing
     * one and its scores are reused), then schedules a new timer and registers
     * it, overwriting the room's previous handle without stopping that timer.
     */
    method StartGameLoop(room: RoomId)
      requires Valid()
      modifies this
      ensures Valid() && events == old(events)
      ensures LoopStarted(room)
    {
      if room !in gameStates {
        var created := new GameState();
        gameStates := gameStates[room := created];
      }
      var gameState := gameStates[room];
      var gameLoop := nextTimer;
      nextTimer := nextTimer + 1;
      intervals := intervals[gameLoop := Interval(room, gameState)];
      gameLoops := gameLoops[room := gameLoop];
    }

    /** stopGameLoop: with a registered timer, clears it and forgets the room; otherwise a no-op. */
    method StopGameLoop(room: RoomId)
      requires Valid()
      modifies this
      ensures Valid() && events == old(events)
      ensures room in old(gameLoops) ==>
        && gameStates == old(gameStates) - {room}
        && gameLoops == old(gameLoops) - {room}
        && intervals == old(intervals) - {old(gameLoops[room])}
      ensures room !in old(gameLoops) ==>
        gameStates == old(gameStates) && gameLoops == old(gameLoops) && intervals == old(intervals)
      ensures nextTimer == old(nextTimer)
    {
      if room in gameLoops {
        var gameLoop := gameLoops[room];
        intervals := intervals - {gameLoop};
        gameStates := gameStates - {room};
        gameLoops := gameLoops - {room};
      }
    }

    /**
     * One firing of timer `t`: advance the captured state; if a side has
     * exactly three points, record the result and stop the room's loop; in
     * every case emit the snapshot to the room.
     */
    method Tick(t: Timer)
      requires Valid() && t in intervals
      modifies this, service, intervals[t].state
      ensures Valid()
      ensures old(intervals[t]).state.Model() == Advance(old(intervals[t].state.Model()))
      ensures
        var room := old(intervals[t]).room;
        var s := Advance(old(intervals[t].state.Model()));
        && events == old(events) + [GameStateUpdate(room, Visible(s))]
        && (s.scoreL == WinningScore || s.scoreR == WinningScore ==>
              && service.AsDb() == RecordResult(old(service.AsDb()), room, s.scoreR, s.scoreL).1
              && (room in old(gameLoops) ==>
                    && gameStates == old(gameStates) - {room} && gameLoops == old(gameLoops) - {room}
                    && intervals == old(intervals) - {old(gameLoops[room])})
              && (room !in old(gameLoops) ==>
                    gameStates == old(gameStates) && gameLoops == old(gameLoops) && intervals == old(intervals)))
        && (s.scoreL != WinningScore && s.scoreR != WinningScore ==>
              && service.games == old(service.games) && service.users == old(service.users)
              && gameStates == old(gameStates) && gameLoops == old(gameLoops)
              && intervals == old(intervals))
    {
      var iv := intervals[t];
      iv.state.Update();
      var stat := iv.state.GetState();
      if stat.scoreL == 3 || stat.scoreR == 3 {
        var _ := service.StoreScore(iv.room, stat.scoreR, stat.scoreL);
        StopGameLoop(iv.room);
      }
      var snapshot := iv.state.GetState();
      events := events + [GameStateUpdate(iv.room, snapshot)];
    }

    /** handleConnection after token resolution: an unknown token is refused, a user is reconnected. */
    method HandleConnection(user: Option<UserId>)
      requires Valid()
      modifies this, service
      ensures Valid()
      ensures user.None? ==>
        events == old(events) + [ClientError("Invalid user token")]
        && service.games == old(service.games) && service.users == old(service.users)
        && gameStates == old(gameStates) && gameLoops == old(gameLoops) && intervals == old(intervals)
    {
      if user.None? {
        events := events + [ClientError("Invalid user token")];
        return;
      }
      HandleReconnection(user.value);
    }

    /**
     * handleReconnection: a paused game of the user is set LIVE iff the other
     * player is active, else PAUSE; the user is marked playing; the loop
     * starts only when LIVE; the refreshed game is emitted to the room.
     */
    method HandleReconnection(u: UserId)
      requires Valid()
      modifies this, service
      ensures Valid()
      ensures old(service.GetUserGames(u)).None? ==>
        && service.games == old(service.games) && service.users == old(service.users)
        && gameStates == old(gameStates) && gameLoops == old(gameLoops) && intervals == old(intervals)
        && events == old(events)
      ensures old(service.GetUserGames(u)).Some? ==>
        var g := old(service.GetUserGames(u)).value;
        var st := ReconnectionStatus(g, old(service.users), u);
        && service.games == old(service.games)[g.id := g.(status := st)]
        && service.users == SetPlaying(old(service.users), u, true)
        && events == old(events) + [JoinedGame(g.id, g.(status := st))]
        && (st == LIVE ==> LoopStarted(g.id))
        && (st != LIVE ==> gameStates == old(gameStates) && gameLoops == old(gameLoops) && intervals == old(intervals))
    {
      var userGamePaused := service.GetUserGames(u);
      if userGamePaused.None? {
        return;
      }
      ResumePaused(u, userGamePaused.value);
    }

    /** The paused-game branch of handleReconnection. */
    method ResumePaused(u: UserId, g: Game)
      requires Valid() && g.id in service.games && service.games[g.id] == g
      modifies this, service
      ensures Valid()
      ensures
        var st := ReconnectionStatus(g, old(service.users), u);
        && service.games == old(service.games)[g.id := g.(status := st)]
        && service.users == SetPlaying(old(service.users), u, true)
        && events == old(events) + [JoinedGame(g.id, g.(status := st))]
        && (st == LIVE ==> LoopStarted(g.id))
        && (st != LIVE ==> gameStates == old(gameStates) && gameLoops == old(gameLoops) && intervals == old(intervals))
    {
      var gameStatusToUpdate := ReconnectionStatus(g, service.users, u);
      var updatedGame := ResumeInStore(u, g, gameStatusToUpdate);
      if gameStatusToUpdate == LIVE {
        StartGameLoop(g.id);
      }
      events := events + [JoinedGame(g.id, updatedGame)];
    }

    /** The two store writes of handleReconnection: the game's new status, then the user's playing flag. */
    method ResumeInStore(u: UserId, g: Game, st: Status) returns (updated: Game)
      requires service.Valid() && g.id in service.games && service.games[g.id] == g
      modifies service
      ensures service.Valid()
      ensures updated == g.(status := st)
      ensures service.games == old(service.games)[g.id := updated]
      ensures service.users == SetPlaying(old(service.users), u, true)
    {
      var stored := service.UpdateGameStatus(g.id, st);
      updated := stored.value;
      service.UpdatePlaying(u);
    }

    /**
     * handleDisconnect: a LIVE game of the user is paused and its timer
     * cleared, but both registry entries stay, so a later start resumes the
     * same state; the user's playing flag is cleared in every case.
     */
    method HandleDisconnect(user: Option<UserId>)
      requires Valid()
      modifies this, service
      ensures Valid()
      ensures gameStates == old(gameStates) && gameLoops == old(gameLoops)
      ensures user.None? || user.value == "" ==>
        && service.games == old(service.games) && service.users == old(service.users)
        && intervals == old(intervals) && events == old(events)
      ensures user.Some? && user.value != "" ==>
        var u := user.value;
        && service.users == SetPlaying(old(service.users), u, false)
        && (old(service.GetActiveGames(u)).None? ==>
              service.games == old(service.games) && intervals == old(intervals) && events == old(events))
        && (old(service.GetActiveGames(u)).Some? ==>
              var g := old(service.GetActiveGames(u)).value;
              && service.games == old(service.games)[g.id := g.(status := PAUSE)]
              && events == old(events) + [OpponentDisconnected(g.id, g.(status := PAUSE))]
              && (g.id in gameLoops ==> intervals == old(intervals) - {gameLoops[g.id]})
              && (g.id !in gameLoops ==> intervals == old(intervals)))
    {
      if user.None? {
        return;
      }
      var userId := user.value;
      if userId == "" {
        return;
      }
      var activeGame := service.GetActiveGames(userId);
      if activeGame.None? {
        service.UpdateUserPlaying(userId, false);
        return;
      }
      PauseOnDisconnect(userId, activeGame.value);
    }

    /** The LIVE-game branch of handleDisconnect. */
    method PauseOnDisconnect(u: UserId, g: Game)
      requires Valid() && g.id in service.games && service.games[g.id] == g
      modifies this, service
      ensures Valid()
      ensures gameStates == old(gameStates) && gameLoops == old(gameLoops)
      ensures service.users == SetPlaying(old(service.users), u, false)
      ensures service.games == old(service.games)[g.id := g.(status := PAUSE)]
      ensures events == old(events) + [OpponentDisconnected(g.id, g.(status := PAUSE))]
      ensures g.id in gameLoops ==> intervals == old(intervals) - {gameLoops[g.id]}
      ensures g.id !in gameLoops ==> intervals == old(intervals)
    {
      var updatedGame := service.PauseGame(g.id);
      service.UpdateUserPlaying(u, false);
      if g.id in gameLoops {
        intervals := intervals - {gameLoops[g.id]};
      }
      events := events + [OpponentDisconnected(g.id, updatedGame.value)];
    }

    /**
     * createAnInviteGame: rejects an inviter who is playing, then an invitee
     * who is playing, then an inviter in a LIVE game; otherwise creates a
     * PRIVATE game at position 5000 and marks the inviter playing. A failure
     * of the store is answered with ok set, as written.
     */
    method CreateRoom(u: UserId, invitedId: UserId, invitedNickname: string, freshId: GameId)
      returns (r: Response)
      requires Valid()
      requires freshId != "" && freshId !in service.games
      modifies this, service
      ensures Valid()
      ensures gameStates == old(gameStates) && gameLoops == old(gameLoops) && intervals == old(intervals)
      ensures old(service.IsUserPlaying(u)) ==> r == Response(false, "User inviting is already in a Game")
      ensures !old(service.IsUserPlaying(u)) && old(service.IsUserPlaying(invitedId)) ==>
        r == Response(false, "User invited is already in a Game")
      ensures !old(service.IsUserPlaying(u)) && !old(service.IsUserPlaying(invitedId)) && old(service.IsUserInLiveGame(u)) ==>
        r == Response(false, "User already in a Live Game")
      ensures !r.ok ==>
        service.games == old(service.games) && service.users == old(service.users) && events == old(events)
      ensures !old(service.IsUserPlaying(u)) && !old(service.IsUserPlaying(invitedId)) && !old(service.IsUserInLiveGame(u)) ==>
        && r.ok
        && (u !in old(service.users) ==>
              && r.statusText == "Error in creating the game"
              && service.games == old(service.games) && service.users == old(service.users)
              && events == old(events))
        && (u in old(service.users) ==>
              && r.statusText == ""
              && freshId in service.games
              && var g := service.games[freshId];
              && g == Game(freshId, u, [u], InvitePosition, CLASSIC, PRIVATE, DefaultStatus, false, 0, 0, false, None)
              && service.games == old(service.games)[freshId := g]
              && service.users == SetPlaying(old(service.users), u, true)
              && events == old(events) + [CreatedGame(freshId, g), InvitedPlayer(freshId, invitedNickname)])
    {
      var isInLiveGame := service.IsUserInLiveGame(u);
      if service.IsUserPlaying(u) {
        return Response(false, "User inviting is already in a Game");
      }
      if service.IsUserPlaying(invitedId) {
        return Response(false, "User invited is already in a Game");
      }
      if isInLiveGame {
        return Response(false, "User already in a Live Game");
      }
      var game := service.CreateGame(u, InvitePosition, false, PRIVATE, freshId);
      if game.Failure? {
        return Response(true, "Error in creating the game");
      }
      service.UpdateUserPlaying(u, true);
      events := events + [CreatedGame(game.value.id, game.value), InvitedPlayer(game.value.id, invitedNickname)];
      r := Response(true, "");
    }

    /**
     * joinInvitation: rejects a user in a LIVE game; otherwise joins the named
     * game (whether or not it is full), marks the user playing, emits
     * joinedGame and starts the loop.
     */
    method JoinInvitation(u: UserId, gameId: GameId) returns (r: Response)
      requires Valid()
      modifies this, service
      ensures Valid()
      ensures old(service.IsUserInLiveGame(u)) ==>
        r == Response(false, "User already in a Live Game")
        && service.games == old(service.games) && service.users == old(service.users)
        && gameStates == old(gameStates) && gameLoops == old(gameLoops) && intervals == old(intervals)
        && events == old(events)
      ensures !old(service.IsUserInLiveGame(u)) && (gameId !in old(service.games) || u !in old(service.users)) ==>
        !r.ok && service.games == old(service.games) && service.users == old(service.users)
        && gameStates == old(gameStates) && gameLoops == old(gameLoops) && intervals == old(intervals)
        && events == old(events)
      ensures !old(service.IsUserInLiveGame(u)) && gameId !in old(service.games) ==>
        r == Response(false, "Error in joining the invitation: " + ErrorMessage(GameNotFound))
      ensures !old(service.IsUserInLiveGame(u)) && gameId in old(service.games) && u !in old(service.users) ==>
        r == Response(false, "Error in joining the invitation: " + ErrorMessage(UserNotFound))
      ensures !old(service.IsUserInLiveGame(u)) && gameId in old(service.games) && u in old(service.users) ==>
        var joined := Joined(old(service.games)[gameId], u, old(service.users));
        && r == Response(true, "")
        && service.games == old(service.games)[gameId := joined]
        && service.users == SetPlaying(old(service.users), u, true)
        && events == old(events) + [JoinedGame(gameId, joined)]
        && LoopStarted(gameId)
    {
      var isInLiveGame := service.IsUserInLiveGame(u);
      if isInLiveGame {
        return Response(false, "User already in a Live Game");
      }
      var updatedGame := JoinAndStart(u, gameId);
      if updatedGame.Failure? {
        return Response(false, "Error in joining the invitation: " + ErrorMessage(updatedGame.error));
      }
      r := Response(true, "");
    }

    /**
     * The steps joinInvitation and joinGame share: add the user to the game,
     * mark them playing, emit joinedGame to the room and start its loop. A
     * store failure stops before any of it.
     */
    method JoinAndStart(u: UserId, id: GameId) returns (joined: Result<Game, Error>)
      requires Valid()
      modifies this, service
      ensures Valid()
      ensures id !in old(service.games) ==> joined == Failure(GameNotFound)
      ensures id in old(service.games) && u !in old(service.users) ==> joined == Failure(UserNotFound)
      ensures joined.Failure? ==>
        service.games == old(service.games) && service.users == old(service.users)
        && gameStates == old(gameStates) && gameLoops == old(gameLoops) && intervals == old(intervals)
        && events == old(events)
      ensures id in old(service.games) && u in old(service.users) ==>
        && joined == Success(Joined(old(service.games)[id], u, old(service.users)))
        && service.games == old(service.games)[id := joined.value]
        && service.users == SetPlaying(old(service.users), u, true)
        && events == old(events) + [JoinedGame(id, joined.value)]
        && LoopStarted(id)
    {
      joined := service.AddUserToGame(u, id);
      if joined.Failure? {
        return;
      }
      service.UpdateUserPlaying(u, true);
      events := events + [JoinedGame(joined.value.id, joined.value)];
      StartGameLoop(joined.value.id);
    }

    /**
     * joinGame: rejects a user in a LIVE game; joins an open PUBLIC game and
     * starts its loop when there is one; otherwise creates a PUBLIC game at
     * the next position and starts no loop.
     */
    method JoinGame(u: UserId, freshId: GameId) returns (r: Response)
      requires Valid()
      requires freshId != "" && freshId !in service.games
      modifies this, service
      ensures Valid()
      ensures old(service.IsUserInLiveGame(u)) ==>
        r == Response(false, "User already in a Live Game")
        && service.games == old(service.games) && service.users == old(service.users)
        && gameStates == old(gameStates) && gameLoops == old(gameLoops) && intervals == old(intervals)
        && events == old(events)
      ensures !old(service.IsUserInLiveGame(u)) && u !in old(service.users) ==>
        r == Response(false, "Error with the database")
        && service.games == old(service.games) && service.users == old(service.users)
        && gameStates == old(gameStates) && gameLoops == old(gameLoops) && intervals == old(intervals)
        && events == old(events)
      ensures !old(service.IsUserInLiveGame(u)) && u in old(service.users) && old(service.GetLowestPositionGame()).Some? ==>
        var open := old(service.GetLowestPositionGame()).value;
        var joined := Joined(open, u, old(service.users));
        && r == Response(true, "")
        && service.games == old(service.games)[open.id := joined]
        && events == old(events) + [JoinedGame(open.id, joined)]
        && LoopStarted(open.id)
      ensures !old(service.IsUserInLiveGame(u)) && u in old(service.users) && old(service.GetLowestPositionGame()).None? ==>
        && r == Response(true, "")
        && freshId in service.games
        && var g := service.games[freshId];
        && g == Game(freshId, u, [u], old(service.GetNextPosition()), CLASSIC, PUBLIC, DefaultStatus, false, 0, 0, false, None)
        && service.games == old(service.games)[freshId := g]
        && events == old(events) + [JoinedGame(freshId, g)]
        && gameStates == old(gameStates) && gameLoops == old(gameLoops) && intervals == old(intervals)
      ensures !old(service.IsUserInLiveGame(u)) && u in old(service.users) ==>
        service.users == SetPlaying(old(service.users), u, true)
    {
      var isInLiveGame := service.IsUserInLiveGame(u);
      if isInLiveGame {
        return Response(false, "User already in a Live Game");
      }
      var lowestPositionGame := service.GetLowestPositionGame();
      if lowestPositionGame.Some? && !lowestPositionGame.value.full {
        r := JoinOpenGame(u, lowestPositionGame.value.id);
        return;
      }
      r := OpenNewGame(u, freshId);
    }

    /** The branch of joinGame that joins the open game `id` and starts its loop. */
    method JoinOpenGame(u: UserId, id: GameId) returns (r: Response)
      requires Valid() && id in service.games
      modifies this, service
      ensures Valid()
      ensures u !in old(service.users) ==>
        r == Response(false, "Error with the database")
        && service.games == old(service.games) && service.users == old(service.users)
        && gameStates == old(gameStates) && gameLoops == old(gameLoops) && intervals == old(intervals)
        && events == old(events)
      ensures u in old(service.users) ==>
        var joined := Joined(old(service.games)[id], u, old(service.users));
        && r == Response(true, "")
        && service.games == old(service.games)[id := joined]
        && service.users == SetPlaying(old(service.users), u, true)
        && events == old(events) + [JoinedGame(id, joined)]
        && LoopStarted(id)
    {
      var updatedGame := JoinAndStart(u, id);
      if updatedGame.Failure? {
        return Response(false, "Error with the database");
      }
      r := Response(true, "");
    }

    /** The branch of joinGame that opens a PUBLIC game at the next position, with no loop yet. */
    method OpenNewGame(u: UserId, freshId: GameId) returns (r: Response)
      requires Valid()
      requires freshId != "" && freshId !in service.games
      modifies this, service
      ensures Valid()
      ensures gameStates == old(gameStates) && gameLoops == old(gameLoops) && intervals == old(intervals)
      ensures u !in old(service.users) ==>
        r == Response(false, "Error with the database")
        && service.games == old(service.games) && service.users == old(service.users)
        && events == old(events)
      ensures u in old(service.users) ==>
        && r == Response(true, "")
        && freshId in service.games
        && var g := service.games[freshId];
        && g == Game(freshId, u, [u], old(service.GetNextPosition()), CLASSIC, PUBLIC, DefaultStatus, false, 0, 0, false, None)
        && service.games == old(service.games)[freshId := g]
        && service.users == SetPlaying(old(service.users), u, true)
        && events == old(events) + [JoinedGame(freshId, g)]
    {
      var nextPosition := service.GetNextPosition();
      var newGame := service.CreateGame(u, nextPosition, false, PUBLIC, freshId);
      if newGame.Failure? {
        return Response(false, "Error with the database");
      }
      service.UpdateUserPlaying(u, true);
      events := events + [JoinedGame(newGame.value.id, newGame.value)];
      r := Response(true, "");
    }

    /**
     * startPowerUp: without a state for the room nothing changes; otherwise
     * speed mode is requested on the state and the game's mode becomes SPEED.
     */
    method StartPowerUp(room: RoomId, isSpeed: bool)
      requires Valid()
      modifies this, service, if room in gameStates then {gameStates[room]} else {}
      ensures Valid()
      ensures gameStates == old(gameStates) && gameLoops == old(gameLoops) && intervals == old(intervals)
      ensures room !in gameStates ==>
        service.games == old(service.games) && service.users == old(service.users) && events == old(events)
      ensures room in gameStates ==>
        && gameStates[room].Model() == WithSpeedMode(old(gameStates[room].Model()), isSpeed)
        && service.users == old(service.users)
        && (room != "" && room in old(service.games) ==>
              service.games == old(service.games)[room := old(service.games)[room].(mode := SPEED)]
              && events == old(events) + [UpdateMode(room, service.games[room])])
        && (room == "" || room !in old(service.games) ==>
              service.games == old(service.games) && events == old(events))
    {
      if room !in gameStates {
        return;
      }
      var gameState := gameStates[room];
      gameState.UpdateSpeedMode(isSpeed);
      if room != "" {
        var game := service.SetModeSpeed(room);
        if game.Success? {
          events := events + [UpdateMode(game.value.id, game.value)];
        }
      }
    }

    /** paddleMove: without a state for the room nothing changes; otherwise the paddles are set. */
    method PaddleMove(room: RoomId, yPadR: real, yPadL: real)
      requires Valid()
      modifies if room in gameStates then {gameStates[room]} else {}
      ensures room in gameStates ==>
        gameStates[room].Model() == SetPaddles(old(gameStates[room].Model()), yPadR, yPadL)
    {
      if room !in gameStates {
        return;
      }
      var gameState := gameStates[room];
      gameState.UpdatePaddlePosition(yPadR, yPadL);
    }
  }
}

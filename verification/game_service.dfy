/**
 * The match lifecycle rules of backend/src/game/game.service.ts, over an
 * in-memory store in place of the relational database: a map of Game
 * records, a map of User records, and the order in which games were created
 * (the order in which an unordered `findFirst` meets them).
 */
module MatchService {
  import opened Wrappers

  type UserId = string
  type GameId = string

  datatype Status = PAUSE | LIVE | ENDED
  datatype GameType = PUBLIC | PRIVATE
  datatype Mode = CLASSIC | SPEED

  datatype Game = Game(
    id: GameId,
    owner: UserId,
    players: seq<UserId>,
    position: int,
    mode: Mode,
    kind: GameType,
    status: Status,
    full: bool,
    scoreL: int,
    scoreR: int,
    finished: bool,
    winner: Option<UserId>)

  datatype User = User(id: UserId, isPlaying: bool, online: bool, expert: bool)

  /** The exceptions the service lets through. */
  datatype Error = InvalidGameId | GameNotFound | UserNotFound | WinnerNotFound

  /**
   * The status a new record gets: createGame does not set one, so the
   * store's column default applies; the database schema is not part of this
   * model and PAUSE is assumed.
   */
  const DefaultStatus: Status := PAUSE

  /** The first entry of `players` that is not `u` (`players.find(p => p.id !== u)`). */
  function FirstOther(players: seq<UserId>, u: UserId): (r: Option<UserId>)
    ensures r.None? <==> forall i :: 0 <= i < |players| ==> players[i] == u
    ensures r.Some? ==> exists j :: 0 <= j < |players| && players[j] == r.value && r.value != u
                         && forall i :: 0 <= i < j ==> players[i] == u
  {
    if |players| == 0 then None
    else if players[0] != u then Some(players[0])
    else
      var rest := FirstOther(players[1..], u);
      assert forall i :: 1 <= i < |players| ==> players[i] == players[1..][i - 1];
      rest
  }

  /** The winner rule of storeScore: the owner iff scoreR > scoreL, else the first non-owner. */
  function WinnerOf(g: Game, scoreR: int, scoreL: int): (w: Option<UserId>)
    ensures scoreR > scoreL ==> w == Some(g.owner)
    ensures scoreR <= scoreL ==> w == FirstOther(g.players, g.owner)
    ensures w == Some(g.owner) <==> scoreR > scoreL
  {
    if scoreR > scoreL then Some(g.owner) else FirstOther(g.players, g.owner)
  }

  /** A tie never goes to the owner; in a two-player game it goes to the other player. */
  lemma TieGoesToOpponent(g: Game, s: int, other: UserId)
    requires g.players == [g.owner, other] && other != g.owner
    ensures WinnerOf(g, s, s) == Some(other)
  {
    assert g.players[1..] == [other];
    assert FirstOther([other], g.owner) == Some(other);
    assert FirstOther(g.players, g.owner) == FirstOther(g.players[1..], g.owner);
  }

  /** The first game in `ids` that lists `u` as a player and has status `st`. */
  function FirstWith(games: map<GameId, Game>, ids: seq<GameId>, u: UserId, st: Status): (r: Option<GameId>)
    requires forall i :: 0 <= i < |ids| ==> ids[i] in games
    ensures r.None? <==> forall i :: 0 <= i < |ids| ==> !(games[ids[i]].status == st && u in games[ids[i]].players)
    ensures r.Some? ==> r.value in ids && games[r.value].status == st && u in games[r.value].players
    ensures r.Some? ==> exists j :: 0 <= j < |ids| && ids[j] == r.value
                         && forall i :: 0 <= i < j ==> !(games[ids[i]].status == st && u in games[ids[i]].players)
  {
    if |ids| == 0 then None
    else if games[ids[0]].status == st && u in games[ids[0]].players then Some(ids[0])
    else
      var rest := FirstWith(games, ids[1..], u, st);
      assert forall i :: 1 <= i < |ids| ==> ids[i] == ids[1..][i - 1];
      rest
  }

  /** The first non-full PUBLIC game in `ids`. */
  function FirstOpenPublic(games: map<GameId, Game>, ids: seq<GameId>): (r: Option<GameId>)
    requires forall i :: 0 <= i < |ids| ==> ids[i] in games
    ensures r.None? <==> forall i :: 0 <= i < |ids| ==> !(!games[ids[i]].full && games[ids[i]].kind == PUBLIC)
    ensures r.Some? ==> r.value in ids && !games[r.value].full && games[r.value].kind == PUBLIC
    ensures r.Some? ==> exists j :: 0 <= j < |ids| && ids[j] == r.value
                         && forall i :: 0 <= i < j ==> !(!games[ids[i]].full && games[ids[i]].kind == PUBLIC)
  {
    if |ids| == 0 then None
    else if !games[ids[0]].full && games[ids[0]].kind == PUBLIC then Some(ids[0])
    else
      var rest := FirstOpenPublic(games, ids[1..]);
      assert forall i :: 1 <= i < |ids| ==> ids[i] == ids[1..][i - 1];
      rest
  }

  /** The largest position among the games in `ids`, none when `ids` is empty. */
  function MaxPosition(games: map<GameId, Game>, ids: seq<GameId>): (r: Option<int>)
    requires forall i :: 0 <= i < |ids| ==> ids[i] in games
    ensures r.None? <==> |ids| == 0
    ensures r.Some? ==> forall i :: 0 <= i < |ids| ==> games[ids[i]].position <= r.value
    ensures r.Some? ==> exists i :: 0 <= i < |ids| && games[ids[i]].position == r.value
  {
    if |ids| == 0 then None
    else
      var rest := MaxPosition(games, ids[1..]);
      assert forall i :: 1 <= i < |ids| ==> ids[i] == ids[1..][i - 1];
      var here := games[ids[0]].position;
      if rest.None? || rest.value < here then Some(here) else rest
  }

  /** `users` with the playing flag of `u` set to `playing`; an unknown user changes nothing. */
  function SetPlaying(users: map<UserId, User>, u: UserId, playing: bool): (r: map<UserId, User>)
    ensures r.Keys == users.Keys
    ensures u in users ==> r[u].isPlaying == playing && r[u].(isPlaying := users[u].isPlaying) == users[u]
    ensures forall v :: v in users && v != u ==> r[v] == users[v]
  {
    if u in users then users[u := users[u].(isPlaying := playing)] else users
  }

  /** The first two players have their playing flag cleared (the two removeUserPlaying calls). */
  function ClearFirstTwo(users: map<UserId, User>, players: seq<UserId>): (r: map<UserId, User>)
    ensures r.Keys == users.Keys
    ensures forall u :: u in r ==> r[u].(isPlaying := users[u].isPlaying) == users[u]
    ensures |players| > 0 && players[0] in users ==> !r[players[0]].isPlaying
    ensures |players| > 1 && players[1] in users ==> !r[players[1]].isPlaying
    ensures forall u :: u in r && (|players| == 0 || u != players[0]) && (|players| < 2 || u != players[1])
                ==> r[u] == users[u]
  {
    var once := if |players| > 0 then SetPlaying(users, players[0], false) else users;
    if |players| > 1 then SetPlaying(once, players[1], false) else once
  }

  /** The game record after the result is written. */
  function Ended(g: Game, scoreR: int, scoreL: int, w: UserId): Game {
    g.(scoreR := scoreR, scoreL := scoreL, winner := Some(w), finished := true, status := ENDED)
  }

  /**
   * The record addUsertoGame writes: `u` appended unless already listed, the
   * game full, and LIVE iff its first player is playing (PAUSE otherwise);
   * nothing else changes.
   */
  function Joined(g: Game, u: UserId, users: map<UserId, User>): (r: Game)
    ensures u in r.players && r.full && r.status != ENDED
    ensures |g.players| <= |r.players| <= |g.players| + 1 && r.players[..|g.players|] == g.players
    ensures u in g.players ==> r.players == g.players
    ensures r.status == LIVE <==> |g.players| > 0 && g.players[0] in users && users[g.players[0]].isPlaying
    ensures r.(players := g.players, full := g.full, status := g.status) == g
  {
    var players := if u in g.players then g.players else g.players + [u];
    var status := if |g.players| > 0 && g.players[0] in users && users[g.players[0]].isPlaying then LIVE else PAUSE;
    g.(players := players, full := true, status := status)
  }

  /** `w` is the winner of some game (the `winnerOf` relation is non-empty). */
  predicate HasWon(games: map<GameId, Game>, w: UserId) {
    exists id :: id in games && games[id].winner == Some(w)
  }

  /** The store as a value, to state what storeScore does as a whole. */
  datatype Db = Db(games: map<GameId, Game>, users: map<UserId, User>)

  /**
   * storeScore: the error checks in source order, then the record update,
   * the winner's expert flag (read after the update) and the playing flags.
   */
  function RecordResult(db: Db, gameId: GameId, scoreR: int, scoreL: int): (r: (Result<Game, Error>, Db))
    ensures r.0.Failure? ==> r.1 == db
    ensures r.0.Success? ==> gameId in db.games && r.1.games == db.games[gameId := r.0.value]
                             && r.0.value.status == ENDED && r.0.value.finished
  {
    if gameId == "" then (Failure(InvalidGameId), db)
    else if gameId !in db.games then (Failure(GameNotFound), db)
    else
      var g := db.games[gameId];
      match WinnerOf(g, scoreR, scoreL)
      case None => (Failure(WinnerNotFound), db)
      case Some(w) =>
        if w !in db.users then (Failure(WinnerNotFound), db)
        else
          var ended := Ended(g, scoreR, scoreL, w);
          var games' := db.games[gameId := ended];
          var users' := db.users[w := db.users[w].(expert := HasWon(games', w))];
          (Success(ended), Db(games', ClearFirstTwo(users', ended.players)))
  }

  /**
   * What storeScore promises: the errors leave the store unchanged; a success
   * records both scores, marks the game finished and ENDED with the winner of
   * `WinnerOf`, sets the winner's expert flag (always true: the game just
   * written counts among the wins), and clears the first two players' flags.
   * It succeeds exactly when `WinnerOf` names a known user.
   */
  lemma RecordResultSpec(db: Db, gameId: GameId, scoreR: int, scoreL: int)
    ensures gameId == "" ==> RecordResult(db, gameId, scoreR, scoreL) == (Failure(InvalidGameId), db)
    ensures gameId != "" && gameId !in db.games ==> RecordResult(db, gameId, scoreR, scoreL) == (Failure(GameNotFound), db)
    ensures RecordResult(db, gameId, scoreR, scoreL).0.Failure? ==> RecordResult(db, gameId, scoreR, scoreL).1 == db
    ensures gameId != "" && gameId in db.games ==>
      (RecordResult(db, gameId, scoreR, scoreL).0.Success? <==>
         WinnerOf(db.games[gameId], scoreR, scoreL).Some? && WinnerOf(db.games[gameId], scoreR, scoreL).value in db.users)
    ensures (&& gameId != "" && gameId in db.games
             && !(WinnerOf(db.games[gameId], scoreR, scoreL).Some? && WinnerOf(db.games[gameId], scoreR, scoreL).value in db.users))
      ==> RecordResult(db, gameId, scoreR, scoreL) == (Failure(WinnerNotFound), db)
    ensures RecordResult(db, gameId, scoreR, scoreL).0.Success? ==>
      var res := RecordResult(db, gameId, scoreR, scoreL);
      var g := res.0.value;
      var db' := res.1;
      && gameId in db.games
      && g.winner == WinnerOf(db.games[gameId], scoreR, scoreL)
      && g == Ended(db.games[gameId], scoreR, scoreL, g.winner.value)
      && db'.games == db.games[gameId := g]
      && g.scoreL == scoreL && g.scoreR == scoreR && g.finished && g.status == ENDED
      && g.players == db.games[gameId].players && g.owner == db.games[gameId].owner
      && g.winner.value in db'.users && db'.users[g.winner.value].expert
      && db'.users.Keys == db.users.Keys
      && db'.users == ClearFirstTwo(db.users[g.winner.value := db.users[g.winner.value].(expert := true)], g.players)
      && (|g.players| > 0 && g.players[0] in db.users ==> !db'.users[g.players[0]].isPlaying)
      && (|g.players| > 1 && g.players[1] in db.users ==> !db'.users[g.players[1]].isPlaying)
  {
    if gameId != "" && gameId in db.games {
      var g := db.games[gameId];
      var w := WinnerOf(g, scoreR, scoreL);
      if w.Some? && w.value in db.users {
        var ended := Ended(g, scoreR, scoreL, w.value);
        var games' := db.games[gameId := ended];
        assert games'[gameId].winner == Some(w.value);
        assert HasWon(games', w.value);
      }
    }
  }

  /**
   * The service over the store. Each record-updating operation of the source
   * is a method that reassigns the maps; each query is a function.
   */
  class GameService {
    var games: map<GameId, Game>
    var order: seq<GameId>
    var users: map<UserId, User>

    /** Every game is listed once in `order`, is stored under its own id, and its owner and players are users. */
    ghost predicate Valid()
      reads this
    {
      && (forall i :: 0 <= i < |order| ==> order[i] in games)
      && (forall id :: id in games ==> id in order)
      && (forall i, j :: 0 <= i < j < |order| ==> order[i] != order[j])
      && (forall id :: id in games ==> games[id].id == id && games[id].owner in users)
      && (forall id, p :: id in games && p in games[id].players ==> p in users)
    }

    constructor (initialUsers: map<UserId, User>)
      ensures Valid() && games == map[] && order == [] && users == initialUsers
    {
      games := map[];
      order := [];
      users := initialUsers;
    }

    function AsDb(): Db
      reads this
    {
      Db(games, users)
    }

    /** createGame: the user is owner and sole player; mode SPEED iff modeSpeed. */
    method CreateGame(u: UserId, positionGame: int, modeSpeed: bool, kind: GameType, freshId: GameId)
      returns (r: Result<Game, Error>)
      requires Valid()
      requires freshId != "" && freshId !in games
      modifies this
      ensures Valid() && users == old(users)
      ensures u !in users ==> r == Failure(UserNotFound) && games == old(games) && order == old(order)
      ensures u in users ==>
        && r == Success(Game(freshId, u, [u], positionGame, if modeSpeed then SPEED else CLASSIC, kind,
                             DefaultStatus, false, 0, 0, false, None))
        && games == old(games)[freshId := r.value]
        && order == old(order) + [freshId]
    {
      if u !in users {
        return Failure(UserNotFound);
      }
      var g := Game(freshId, u, [u], positionGame, if modeSpeed then SPEED else CLASSIC, kind,
                    DefaultStatus, false, 0, 0, false, None);
      games := games[freshId := g];
      order := order + [freshId];
      r := Success(g);
    }

    /** addUsertoGame: joins `u`, marks the game full, LIVE iff the first player is playing. */
    method AddUserToGame(u: UserId, gameId: GameId) returns (r: Result<Game, Error>)
      requires Valid()
      modifies this
      ensures Valid() && users == old(users) && order == old(order)
      ensures gameId !in old(games) ==> r == Failure(GameNotFound) && games == old(games)
      ensures gameId in old(games) && u !in users ==> r == Failure(UserNotFound) && games == old(games)
      ensures gameId in old(games) && u in users ==>
        r == Success(Joined(old(games)[gameId], u, users)) && games == old(games)[gameId := r.value]
    {
      if gameId !in games {
        return Failure(GameNotFound);
      }
      var checkGame := games[gameId];
      var gameStatus := if |checkGame.players| > 0 && users[checkGame.players[0]].isPlaying then LIVE else PAUSE;
      if u !in users {
        return Failure(UserNotFound);
      }
      var players := if u in checkGame.players then checkGame.players else checkGame.players + [u];
      var updated := checkGame.(players := players, full := true, status := gameStatus);
      games := games[gameId := updated];
      r := Success(updated);
    }

    /** storeScore, proved against `RecordResult`. */
    method StoreScore(gameId: GameId, scoreR: int, scoreL: int) returns (r: Result<Game, Error>)
      requires Valid()
      modifies this
      ensures Valid() && order == old(order)
      ensures (r, AsDb()) == RecordResult(old(AsDb()), gameId, scoreR, scoreL)
    {
      if gameId == "" {
        return Failure(InvalidGameId);
      }
      if gameId !in games {
        return Failure(GameNotFound);
      }
      var game := games[gameId];
      var winnerId := if scoreR > scoreL then Some(game.owner) else FirstOther(game.players, game.owner);
      if winnerId.None? || winnerId.value !in users {
        return Failure(WinnerNotFound);
      }
      var w := winnerId.value;
      var updatedGame := game.(scoreR := scoreR, scoreL := scoreL, winner := Some(w),
                               finished := true, status := ENDED);
      assert updatedGame == Ended(game, scoreR, scoreL, w) && WinnerOf(game, scoreR, scoreL) == Some(w);
      WriteResult(updatedGame, w);
      ReleasePlayers(updatedGame.players);
      r := Success(updatedGame);
    }

    /** The two removeUserPlaying calls of storeScore, on the first and second player. */
    method ReleasePlayers(players: seq<UserId>)
      requires Valid()
      modifies this
      ensures Valid() && games == old(games) && order == old(order)
      ensures users == ClearFirstTwo(old(users), players)
    {
      if |players| > 0 { RemoveUserPlaying(players[0]); }
      if |players| > 1 { RemoveUserPlaying(players[1]); }
    }

    /** The two writes of storeScore: the ended game record, then the winner's expert flag. */
    method WriteResult(ended: Game, w: UserId)
      requires Valid() && ended.id in games && w in users
      requires ended.owner == games[ended.id].owner && ended.players == games[ended.id].players
      modifies this
      ensures Valid() && order == old(order)
      ensures games == old(games)[ended.id := ended]
      ensures users == old(users)[w := old(users)[w].(expert := HasWon(games, w))]
    {
      games := games[ended.id := ended];
      var wins := HasWon(games, w);
      users := users[w := users[w].(expert := wins)];
    }

    /** updateUserPlaying: sets the flag of a known user; an unknown one changes nothing. */
    method UpdateUserPlaying(u: UserId, playing: bool)
      requires Valid()
      modifies this
      ensures Valid() && games == old(games) && order == old(order)
      ensures users == SetPlaying(old(users), u, playing)
    {
      if u in users {
        users := users[u := users[u].(isPlaying := playing)];
      }
    }

    /** removeUserPlaying: clears the flag of a known user. */
    method RemoveUserPlaying(u: UserId)
      requires Valid()
      modifies this
      ensures Valid() && games == old(games) && order == old(order)
      ensures users == SetPlaying(old(users), u, false)
    {
      if u in users {
        users := users[u := users[u].(isPlaying := false)];
      }
    }

    /** updatePlaying: marks a known user as playing. */
    method UpdatePlaying(u: UserId)
      requires Valid()
      modifies this
      ensures Valid() && games == old(games) && order == old(order)
      ensures users == SetPlaying(old(users), u, true)
    {
      UpdateUserPlaying(u, true);
    }

    /** updateGameStatus: overwrites the status of an existing game. */
    method UpdateGameStatus(gameId: GameId, status: Status) returns (r: Result<Game, Error>)
      requires Valid()
      modifies this
      ensures Valid() && users == old(users) && order == old(order)
      ensures gameId !in old(games) ==> r == Failure(GameNotFound) && games == old(games)
      ensures gameId in old(games) ==>
        r == Success(old(games)[gameId].(status := status)) && games == old(games)[gameId := r.value]
    {
      if gameId !in games {
        return Failure(GameNotFound);
      }
      var updated := games[gameId].(status := status);
      games := games[gameId := updated];
      r := Success(updated);
    }

    /** pauseGame: status PAUSE. */
    method PauseGame(gameId: GameId) returns (r: Result<Game, Error>)
      requires Valid()
      modifies this
      ensures Valid() && users == old(users) && order == old(order)
      ensures gameId !in old(games) ==> r == Failure(GameNotFound) && games == old(games)
      ensures gameId in old(games) ==>
        r == Success(old(games)[gameId].(status := PAUSE)) && games == old(games)[gameId := r.value]
    {
      r := UpdateGameStatus(gameId, PAUSE);
    }

    /** The mode update the gateway's startPowerUp writes straight to the store. */
    method SetModeSpeed(gameId: GameId) returns (r: Result<Game, Error>)
      requires Valid()
      modifies this
      ensures Valid() && users == old(users) && order == old(order)
      ensures gameId !in old(games) ==> r == Failure(GameNotFound) && games == old(games)
      ensures gameId in old(games) ==>
        r == Success(old(games)[gameId].(mode := SPEED)) && games == old(games)[gameId := r.value]
    {
      if gameId !in games {
        return Failure(GameNotFound);
      }
      var updated := games[gameId].(mode := SPEED);
      games := games[gameId := updated];
      r := Success(updated);
    }

    /** getLowestPositionGame: some non-full PUBLIC game, none only if there is no such game. */
    function GetLowestPositionGame(): (r: Option<Game>)
      reads this
      requires Valid()
      ensures r.Some? ==> r.value.id in games && games[r.value.id] == r.value
                          && !r.value.full && r.value.kind == PUBLIC
      ensures r.None? <==> forall id :: id in games ==> games[id].full || games[id].kind != PUBLIC
    {
      match FirstOpenPublic(games, order)
      case None => None
      case Some(id) => Some(games[id])
    }

    /** getNextPosition: one more than the largest position, 1 for an empty store. */
    function GetNextPosition(): (r: int)
      reads this
      requires Valid()
      ensures games == map[] ==> r == 1
      ensures games != map[] ==>
        (forall id :: id in games ==> games[id].position < r)
        && exists id :: id in games && games[id].position == r - 1
    {
      match MaxPosition(games, order)
      case None => 1
      case Some(m) => m + 1
    }

    /** getUserGames: a PAUSE game of a known user, if any. */
    function GetUserGames(u: UserId): (r: Option<Game>)
      reads this
      requires Valid()
      ensures r.Some? ==> u in users && r.value.id in games && games[r.value.id] == r.value
                          && r.value.status == PAUSE && u in r.value.players
      ensures r.None? <==> u !in users || forall id :: id in games ==> !(games[id].status == PAUSE && u in games[id].players)
    {
      if u !in users then None
      else match FirstWith(games, order, u, PAUSE)
        case None => None
        case Some(id) => Some(games[id])
    }

    /** getActiveGames: a LIVE game of a known user, if any. */
    function GetActiveGames(u: UserId): (r: Option<Game>)
      reads this
      requires Valid()
      ensures r.Some? ==> u in users && r.value.id in games && games[r.value.id] == r.value
                          && r.value.status == LIVE && u in r.value.players
      ensures r.None? <==> u !in users || forall id :: id in games ==> !(games[id].status == LIVE && u in games[id].players)
    {
      if u !in users then None
      else match FirstWith(games, order, u, LIVE)
        case None => None
        case Some(id) => Some(games[id])
    }

    /** isUserInLiveGame: some LIVE game lists the user. */
    function IsUserInLiveGame(u: UserId): (r: bool)
      reads this
      requires Valid()
      ensures r <==> exists id :: id in games && games[id].status == LIVE && u in games[id].players
    {
      FirstWith(games, order, u, LIVE).Some?
    }

    /** isUserPlaying: the flag of a known user, false for an unknown one. */
    function IsUserPlaying(u: UserId): (r: bool)
      reads this
      ensures u !in users ==> !r
      ensures u in users ==> r == users[u].isPlaying
    {
      if u in users then users[u].isPlaying else false
    }
  }

  /** A user who is in a LIVE game has an active game to be paused on disconnect. */
  lemma LiveGameIsActive(s: GameService, u: UserId)
    requires s.Valid()
    requires s.IsUserInLiveGame(u)
    ensures s.GetActiveGames(u).Some?
  {
    var id :| id in s.games && s.games[id].status == LIVE && u in s.games[id].players;
    assert u in s.users;
  }
}

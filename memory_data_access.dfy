/** The in-memory store of the server (`MemoryDataAccess.java`): three keyed tables of
    users, games and authorisation tokens, each with insert-if-absent, lookup-or-fail and
    (for games) upsert, (for tokens) delete-or-fail, and one operation that empties all three. */
module DataAccess {

  /** A registered user, stored under its `username`. */
  datatype UserData = UserData(username: string, password: string, email: string)

  /** A game, stored under its `gameID`; `details` stands for the other components of the
      record, which the store never looks at. */
  datatype GameData = GameData(gameID: int, details: string)

  /** A session token and the user it belongs to, stored under `authToken`. */
  datatype AuthData = AuthData(authToken: string, username: string)

  /** The outcome of an operation that returns nothing: done, or the `DataAccessException`
      the source throws, with its message. */
  datatype Status = Success | Failure(message: string)

  /** The outcome of a lookup: the stored value, or the `DataAccessException` the source
      throws, with its message. */
  datatype Result<T> = Ok(value: T) | Error(message: string)

  /** `MemoryDataAccess`: three maps, updated in place. */
  class MemoryDataAccess {
    var users: map<string, UserData>
    var games: map<int, GameData>
    var authTokens: map<string, AuthData>

    /** Every entry is stored under its own key. */
    ghost predicate Valid()
      reads this
    {
      && (forall name :: name in users ==> users[name].username == name)
      && (forall id :: id in games ==> games[id].gameID == id)
      && (forall token :: token in authTokens ==> authTokens[token].authToken == token)
    }

    /** A new store holds nothing. */
    constructor ()
      ensures Valid()
      ensures users == map[] && games == map[] && authTokens == map[]
    {
      users := map[];
      games := map[];
      authTokens := map[];
    }

    /** `clear`: all three tables are emptied. */
    method Clear()
      modifies this
      ensures Valid()
      ensures users == map[] && games == map[] && authTokens == map[]
    {
      users := map[];
      games := map[];
      authTokens := map[];
    }

    /** `createUser`: fails, changing nothing, when the username is taken; otherwise the user
        table gains exactly this entry. The other tables are untouched. */
    method CreateUser(user: UserData) returns (status: Status)
      requires Valid()
      modifies this
      ensures Valid()
      ensures status.Failure? <==> user.username in old(users)
      ensures status.Failure? ==> status.message == "User already exists" && users == old(users)
      ensures status.Success? ==> users == old(users)[user.username := user]
      ensures status.Success? ==> GetUser(user.username) == Ok(user)
      ensures forall name :: name != user.username ==> GetUser(name) == old(GetUser(name))
      ensures games == old(games) && authTokens == old(authTokens)
    {
      if user.username in users {
        return Failure("User already exists");
      }
      users := users[user.username := user];
      return Success;
    }

    /** `getUser`: the stored user for a present name, an error for an absent one. */
    function GetUser(username: string): (r: Result<UserData>)
      reads this
      ensures r.Ok? <==> username in users
      ensures r.Ok? ==> r.value == users[username]
      ensures r.Error? ==> r.message == "User not found"
      ensures Valid() && r.Ok? ==> r.value.username == username
    {
      if username in users then Ok(users[username]) else Error("User not found")
    }

    /** `createGame`: insert-if-absent on the game's id; a duplicate id fails and changes
        nothing. The other tables are untouched. */
    method CreateGame(game: GameData) returns (status: Status)
      requires Valid()
      modifies this
      ensures Valid()
      ensures status.Failure? <==> game.gameID in old(games)
      ensures status.Failure? ==> status.message == "Game already exists" && games == old(games)
      ensures status.Success? ==> games == old(games)[game.gameID := game]
      ensures status.Success? ==> GetGame(game.gameID) == Ok(game)
      ensures forall id :: id != game.gameID ==> GetGame(id) == old(GetGame(id))
      ensures users == old(users) && authTokens == old(authTokens)
    {
      if game.gameID in games {
        return Failure("Game already exists");
      }
      games := games[game.gameID := game];
      return Success;
    }

    /** `getGame`: the stored game for a present id, an error for an absent one. */
    function GetGame(gameID: int): (r: Result<GameData>)
      reads this
      ensures r.Ok? <==> gameID in games
      ensures r.Ok? ==> r.value == games[gameID]
      ensures r.Error? ==> r.message == "No game found"
      ensures Valid() && r.Ok? ==> r.value.gameID == gameID
    {
      if gameID in games then Ok(games[gameID]) else Error("No game found")
    }

    /** `listGames`: the stored games, each the one its id looks up; in a valid store no two
        listed games share an id. */
    function ListGames(): (r: set<GameData>)
      reads this
      ensures forall game :: game in r <==> exists id :: id in games && games[id] == game
      ensures Valid() ==> forall game :: game in r ==> GetGame(game.gameID) == Ok(game)
      ensures Valid() ==> forall a, b :: a in r && b in r && a.gameID == b.gameID ==> a == b
    {
      set id | id in games :: games[id]
    }

    /** `updateGame`: stores the game under its id, whether or not one was there; the other
        games and tables are untouched. */
    method UpdateGame(game: GameData)
      requires Valid()
      modifies this
      ensures Valid()
      ensures games == old(games)[game.gameID := game]
      ensures GetGame(game.gameID) == Ok(game)
      ensures forall id :: id != game.gameID ==> GetGame(id) == old(GetGame(id))
      ensures users == old(users) && authTokens == old(authTokens)
    {
      games := games[game.gameID := game];
    }

    /** `createAuth`: insert-if-absent on the token; a duplicate token fails and changes
        nothing. The other tables are untouched. */
    method CreateAuth(auth: AuthData) returns (status: Status)
      requires Valid()
      modifies this
      ensures Valid()
      ensures status.Failure? <==> auth.authToken in old(authTokens)
      ensures status.Failure? ==> status.message == "Auth token already exists" && authTokens == old(authTokens)
      ensures status.Success? ==> authTokens == old(authTokens)[auth.authToken := auth]
      ensures status.Success? ==> GetAuth(auth.authToken) == Ok(auth)
      ensures forall token :: token != auth.authToken ==> GetAuth(token) == old(GetAuth(token))
      ensures users == old(users) && games == old(games)
    {
      if auth.authToken in authTokens {
        return Failure("Auth token already exists");
      }
      authTokens := authTokens[auth.authToken := auth];
      return Success;
    }

    /** `getAuth`: the stored token record for a present token, an error for an absent one. */
    function GetAuth(authToken: string): (r: Result<AuthData>)
      reads this
      ensures r.Ok? <==> authToken in authTokens
      ensures r.Ok? ==> r.value == authTokens[authToken]
      ensures r.Error? ==> r.message == "Invalid auth"
      ensures Valid() && r.Ok? ==> r.value.authToken == authToken
    {
      if authToken in authTokens then Ok(authTokens[authToken]) else Error("Invalid auth")
    }

    /** `deleteAuth`: removes exactly that token, after which it no longer looks up; an absent
        token fails and changes nothing. The other tables are untouched. */
    method DeleteAuth(authToken: string) returns (status: Status)
      requires Valid()
      modifies this
      ensures Valid()
      ensures status.Failure? <==> authToken !in old(authTokens)
      ensures status.Failure? ==> status.message == "Invalid auth" && authTokens == old(authTokens)
      ensures status.Success? ==> authTokens == old(authTokens) - {authToken}
      ensures GetAuth(authToken).Error?
      ensures forall token :: token != authToken ==> GetAuth(token) == old(GetAuth(token))
      ensures users == old(users) && games == old(games)
    {
      if authToken in authTokens {
        authTokens := authTokens - {authToken};
        return Success;
      } else {
        return Failure("Invalid auth");
      }
    }
  }
}

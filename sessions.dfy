/**
 * What both login handshakes share: the secret store (code key to session
 * token), the session store (session token to user), and the end of a
 * login, which upserts the user, stores the session and returns the tokens.
 * The user upsert (`GetOrCreateUser`) and the result check
 * (`LoginResultT.decode`, with the readable report of its errors) are inputs.
 */
module Sessions {
  import opened Wrappers
  import opened Responses

  /** What `GetOrCreateUser` returns: the user's id and a GraphQL JWT. */
  datatype Metadata = Metadata(id: string, jwt: string)

  datatype AppUser = AppUser(
    createdAt: int,
    email: string,
    group: string,
    roles: seq<string>,
    sessionToken: string,
    metadata: Option<Metadata>)

  datatype UserProfile = UserProfile(email: string, id: string, roles: seq<string>)

  datatype LoginResult = LoginResult(backendToken: string, graphqlToken: string, user: UserProfile)

  datatype Upsert = UpsertFailed(message: string) | Upserted(metadata: Metadata)

  /** `secretStorage.get(key)` read as the handlers do: a failed read, a missing key and "" all refuse. */
  function TokenFor(entries: map<string, string>, key: string, readFails: bool): (r: Option<string>)
    ensures r.Some? <==> !readFails && key in entries && entries[key] != ""
    ensures r.Some? ==> r.value == entries[key] && r.value != ""
  {
    if readFails || key !in entries || entries[key] == "" then None else Some(entries[key])
  }

  /** `IObjectStorage<string, string>` holding secret-code keys. */
  class SecretStorage {
    var entries: map<string, string>

    constructor()
      ensures entries == map[]
    {
      entries := map[];
    }

    /** `secretStorage.set(key, value)`; a failed write changes nothing. */
    method Set(key: string, value: string, fails: bool) returns (ok: bool)
      modifies this
      ensures ok == !fails
      ensures entries == if fails then old(entries) else old(entries)[key := value]
    {
      if fails {
        return false;
      }
      entries := entries[key := value];
      return true;
    }
  }

  /** `IObjectStorage<AppUser, SessionToken>` */
  class SessionStorage {
    var sessions: map<string, AppUser>

    constructor()
      ensures sessions == map[]
    {
      sessions := map[];
    }

    /** `sessionStorage.set(token, user)`; a failed write changes nothing. */
    method Set(token: string, user: AppUser, fails: bool) returns (ok: bool)
      modifies this
      ensures ok == !fails
      ensures sessions == if fails then old(sessions) else old(sessions)[token := user]
    {
      if fails {
        return false;
      }
      sessions := sessions[token := user];
      return true;
    }
  }

  /** The result a login for `user` returns once the upsert gave `metadata`. */
  function ResultFor(user: AppUser, metadata: Metadata): LoginResult
  {
    LoginResult(user.sessionToken, metadata.jwt, UserProfile(user.email, metadata.id, user.roles))
  }

  /**
   * The response at the end of a login for `user`: an upsert failure and a
   * session write failure are internal errors; otherwise the result carries
   * the user's session token as backend token, the upserted JWT and id, and
   * the user's e-mail and roles, provided it passes the result check, whose
   * readable report (`resultErrors`) is appended to the error otherwise.
   */
  function LoginResponse(user: AppUser, upsert: Upsert, sessionFails: bool,
                         resultErrors: LoginResult -> Option<string>): (r: Response<LoginResult>)
    ensures r.Success? <==>
      upsert.Upserted? && !sessionFails && resultErrors(ResultFor(user, upsert.metadata)).None?
    ensures r.Success? ==>
      && r.body.backendToken == user.sessionToken
      && r.body.graphqlToken == upsert.metadata.jwt
      && r.body.user == UserProfile(user.email, upsert.metadata.id, user.roles)
    ensures upsert.UpsertFailed? ==> r == Internal("Error creating user: " + upsert.message)
    ensures upsert.Upserted? && sessionFails ==> r == Internal("Cannot store user info")
    ensures upsert.Upserted? && !sessionFails && resultErrors(ResultFor(user, upsert.metadata)).Some? ==>
      r == Internal("Cannot decode login result: " + resultErrors(ResultFor(user, upsert.metadata)).value)
    ensures !r.Forbidden? && !r.NotFound?
  {
    match upsert
    case UpsertFailed(message) => Internal("Error creating user: " + message)
    case Upserted(metadata) =>
      if sessionFails then Internal("Cannot store user info")
      else
        var result := ResultFor(user, metadata);
        match resultErrors(result)
        case None => Success(result)
        case Some(report) => Internal("Cannot decode login result: " + report)
  }

  /** The sessions after a login for `user`: its session, with metadata, under its token once upserted. */
  function SessionsAfter(sessions: map<string, AppUser>, user: AppUser, upsert: Upsert, sessionFails: bool): map<string, AppUser>
  {
    if upsert.Upserted? && !sessionFails
    then sessions[user.sessionToken := user.(metadata := Some(upsert.metadata))]
    else sessions
  }

  /** The shared end of both login handlers. */
  method CompleteLogin(store: SessionStorage, user: AppUser, getOrCreate: AppUser -> Upsert,
                       sessionFails: bool, resultErrors: LoginResult -> Option<string>) returns (r: Response<LoginResult>)
    modifies store
    ensures r == LoginResponse(user, getOrCreate(user), sessionFails, resultErrors)
    ensures store.sessions == SessionsAfter(old(store.sessions), user, getOrCreate(user), sessionFails)
  {
    var upsert := getOrCreate(user);
    if upsert.UpsertFailed? {
      return Internal("Error creating user: " + upsert.message);
    }
    var metadata := upsert.metadata;
    var stored := store.Set(user.sessionToken, user.(metadata := Some(metadata)), sessionFails);
    if !stored {
      return Internal("Cannot store user info");
    }
    var result := LoginResult(user.sessionToken, metadata.jwt, UserProfile(user.email, metadata.id, user.roles));
    var errors := resultErrors(result);
    if errors.None? {
      return Success(result);
    }
    return Internal("Cannot decode login result: " + errors.value);
  }

  /**
   * A session is stored exactly when the upsert and the session write
   * succeed, under the user's token; the session is stored even when the
   * result check then fails.
   */
  lemma SessionStoredIffUpserted(sessions: map<string, AppUser>, user: AppUser, upsert: Upsert, sessionFails: bool,
                                 resultErrors: LoginResult -> Option<string>)
    ensures SessionsAfter(sessions, user, upsert, sessionFails) != sessions ==> upsert.Upserted? && !sessionFails
    ensures upsert.Upserted? && !sessionFails ==>
      && user.sessionToken in SessionsAfter(sessions, user, upsert, sessionFails)
      && SessionsAfter(sessions, user, upsert, sessionFails)[user.sessionToken].metadata == Some(upsert.metadata)
    ensures LoginResponse(user, upsert, sessionFails, resultErrors).Success? ==>
      SessionsAfter(sessions, user, upsert, sessionFails)[user.sessionToken].sessionToken == user.sessionToken
  {
  }
}

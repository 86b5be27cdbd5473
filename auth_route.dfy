/**
 * The login route (routes/auth.route.ts): exchanges a username and password
 * for the user's API key. `Users` (username to password) and `AuthKeys`
 * (username to API key) are read-only maps loaded at start-up; they are
 * parameters here.
 */
module AuthRoute {
  import opened Wrappers
  import opened Buffers
  import opened Http

  /** The request body of `POST /api-key`. */
  datatype ApiKeyPayload = ApiKeyPayload(username: string, password: string)

  const NoApiKeyError := "No API key found for user; please generate one before proceeding!"
  const BadCredentialsError := "Credentials provided were incorrect; please try again!"

  /** The user is known and the submitted password is the stored one. */
  predicate ValidCredentials(users: map<string, string>, payload: ApiKeyPayload)
  {
    payload.username in users && users[payload.username] == payload.password
  }

  /** The three replies of the handler. */
  function KeyIssued(username: string, apiKey: string): Response { Reply(200, ApiKey(username, apiKey)) }
  function NoKeyProvisioned(username: string): Response { Reply(404, CredentialsError(username, NoApiKeyError)) }
  function CredentialsRejected(username: string): Response { Reply(401, CredentialsError(username, BadCredentialsError)) }

  /** `Users.get(username) || ''` for a known user. */
  function StoredPassword(users: map<string, string>, username: string): (stored: string)
    requires username in users
    ensures stored == users[username]
  {
    if users[username] == "" then "" else users[username]
  }

  /**
   * `getApiKeyHandler`. The password check is
   * `timingSafeEqual(Buffer.from(stored), Buffer.from(password))`, reached only
   * for a known user; it throws when the two byte lengths differ.
   */
  function GetApiKeyHandler(users: map<string, string>, authKeys: map<string, string>, payload: ApiKeyPayload)
    : (response: Response)
    ensures response.Thrown? <==>
      payload.username in users && |Utf8(users[payload.username])| != |Utf8(payload.password)|
    ensures response.Thrown? ==> response.error == TimingSafeEqualLengthError
    ensures response.Reply? ==>
      || (response.body.ApiKey? && response == KeyIssued(payload.username, response.body.apiKey))
      || response == NoKeyProvisioned(payload.username)
      || response == CredentialsRejected(payload.username)
  {
    var username := payload.username;
    if username in users then
      match TimingSafeEqual(Utf8(StoredPassword(users, username)), Utf8(payload.password))
      case Failure(error) => Thrown(error)
      case Success(same) =>
        if !same then CredentialsRejected(username)
        else if username in authKeys then KeyIssued(username, authKeys[username])
        else NoKeyProvisioned(username)
    else CredentialsRejected(username)
  }

  /**
   * A key is issued exactly when the user is known, the password is the
   * stored one and a key is provisioned; the key is that user's key.
   */
  lemma KeyIssuedIffCredentialsAndKey(
    users: map<string, string>, authKeys: map<string, string>, payload: ApiKeyPayload)
    ensures var response := GetApiKeyHandler(users, authKeys, payload);
      (response.Reply? && response.status == 200) <==>
        ValidCredentials(users, payload) && payload.username in authKeys
    ensures ValidCredentials(users, payload) && payload.username in authKeys ==>
        GetApiKeyHandler(users, authKeys, payload) == KeyIssued(payload.username, authKeys[payload.username])
  {
    var username := payload.username;
    if username in users && Utf8(users[username]) == Utf8(payload.password) {
      Utf8Injective(users[username], payload.password);
    }
  }

  /** Valid credentials without a provisioned key give 404, never a key. */
  lemma NoKeyIffCredentialsWithoutKey(
    users: map<string, string>, authKeys: map<string, string>, payload: ApiKeyPayload)
    ensures var response := GetApiKeyHandler(users, authKeys, payload);
      response == NoKeyProvisioned(payload.username) <==>
        ValidCredentials(users, payload) && payload.username !in authKeys
  {
    var username := payload.username;
    if username in users && Utf8(users[username]) == Utf8(payload.password) {
      Utf8Injective(users[username], payload.password);
    }
  }

  /** An unknown username is rejected whatever the password: the comparison is never reached. */
  lemma UnknownUserRejected(users: map<string, string>, authKeys: map<string, string>, payload: ApiKeyPayload)
    requires payload.username !in users
    ensures GetApiKeyHandler(users, authKeys, payload) == CredentialsRejected(payload.username)
  {
  }

  /** A known user with a different password of the same byte length is rejected with 401. */
  lemma WrongPasswordRejected(users: map<string, string>, authKeys: map<string, string>, payload: ApiKeyPayload)
    requires payload.username in users && users[payload.username] != payload.password
    requires |Utf8(users[payload.username])| == |Utf8(payload.password)|
    ensures GetApiKeyHandler(users, authKeys, payload) == CredentialsRejected(payload.username)
  {
    if Utf8(users[payload.username]) == Utf8(payload.password) {
      Utf8Injective(users[payload.username], payload.password);
    }
  }

  /**
   * A known user submitting a password whose byte length differs from the
   * stored one makes `timingSafeEqual` throw: the handler replies neither
   * 401 nor anything else. An empty password against a non-empty stored one
   * is such a request.
   */
  lemma LengthMismatchThrows(users: map<string, string>, authKeys: map<string, string>, username: string)
    requires username in users && users[username] != ""
    ensures GetApiKeyHandler(users, authKeys, ApiKeyPayload(username, "")) == Thrown(TimingSafeEqualLengthError)
  {
  }

  /**
   * The login decision with a byte-length mismatch treated as a wrong
   * password, checked before `timingSafeEqual` is called.
   */
  function GetApiKeyHandlerLengthChecked(
    users: map<string, string>, authKeys: map<string, string>, payload: ApiKeyPayload)
    : (response: Response)
    ensures response.Reply?
    ensures ValidCredentials(users, payload) && payload.username in authKeys ==>
      response == KeyIssued(payload.username, authKeys[payload.username])
    ensures ValidCredentials(users, payload) && payload.username !in authKeys ==>
      response == NoKeyProvisioned(payload.username)
    ensures !ValidCredentials(users, payload) ==> response == CredentialsRejected(payload.username)
  {
    var username := payload.username;
    if username in users then
      var stored, given := Utf8(StoredPassword(users, username)), Utf8(payload.password);
      if |stored| != |given| || TimingSafeEqual(stored, given) != Success(true) then
        CredentialsRejected(username)
      else
        Utf8Injective(users[username], payload.password);
        if username in authKeys then KeyIssued(username, authKeys[username])
        else NoKeyProvisioned(username)
    else CredentialsRejected(username)
  }
}

/** The account controller's decision chains.  The user store, password hashing
    and token signing are outside the model: each lookup arrives as an input that
    either produced a value or threw, and signing is a function parameter. */
module AuthController {
  import opened JsText

  datatype Io<T> = Done(value: T) | Threw

  /** A stored user as the controller reads it. */
  datatype UserRecord = UserRecord(id: string, name: string, email: string, avatar: Option<string>)

  datatype AuthBody =
    | Profile(userId: string, name: string, email: string, avatar: Option<string>, token: Option<string>)
    | AuthMessage(message: string)
    | UserCount(count: nat)

  datatype AuthResponse = AuthResponse(status: int, body: AuthBody)

  /** The public fields of a user, with or without a token. */
  function ProfileOf(u: UserRecord, token: Option<string>): (b: AuthBody)
    ensures b.Profile? && b.userId == u.id && b.name == u.name && b.email == u.email && b.avatar == u.avatar
    ensures b.token == token
  {
    Profile(u.id, u.name, u.email, u.avatar, token)
  }

  const InvalidCredentials: AuthResponse := AuthResponse(401, AuthMessage("Invalid email or password"))

  /** `signup`: required fields, then the email must be unused, then the created
      user (if any) is returned with a token. */
  function Signup(name: Option<string>, email: Option<string>, password: Option<string>,
                  existing: Io<Option<UserRecord>>, created: Io<Option<UserRecord>>,
                  sign: string -> string): (r: AuthResponse)
    ensures !Truthy(name) || !Truthy(email) || !Truthy(password) ==>
      r == AuthResponse(400, AuthMessage("Please provide all required fields"))
    ensures r.status == 201 <==>
      Truthy(name) && Truthy(email) && Truthy(password)
      && existing == Done(None) && created.Done? && created.value.Some?
    ensures r.status == 201 ==> r.body == ProfileOf(created.value.value, Some(sign(created.value.value.id)))
    ensures Truthy(name) && Truthy(email) && Truthy(password) && existing == Done(None) && created == Done(None) ==>
      r == AuthResponse(400, AuthMessage("Invalid user data"))
    ensures Truthy(name) && Truthy(email) && Truthy(password) && existing.Done? && existing.value.Some? ==>
      r == AuthResponse(400, AuthMessage("User already exists with this email"))
    ensures r.status == 500 <==>
      Truthy(name) && Truthy(email) && Truthy(password) && (existing.Threw? || (existing == Done(None) && created.Threw?))
  {
    if !Truthy(name) || !Truthy(email) || !Truthy(password) then
      AuthResponse(400, AuthMessage("Please provide all required fields"))
    else match existing
      case Threw => AuthResponse(500, AuthMessage("Server error during signup"))
      case Done(Some(_)) => AuthResponse(400, AuthMessage("User already exists with this email"))
      case Done(None) =>
        match created
        case Threw => AuthResponse(500, AuthMessage("Server error during signup"))
        case Done(None) => AuthResponse(400, AuthMessage("Invalid user data"))
        case Done(Some(u)) => AuthResponse(201, ProfileOf(u, Some(sign(u.id))))
  }

  /** `login`: required fields, the user looked up by email, then the password
      comparison. */
  function Login(email: Option<string>, password: Option<string>,
                 found: Io<Option<UserRecord>>, passwordMatches: Io<bool>,
                 sign: string -> string): (r: AuthResponse)
    ensures !Truthy(email) || !Truthy(password) ==>
      r == AuthResponse(400, AuthMessage("Please provide email and password"))
    ensures r.status == 200 <==>
      Truthy(email) && Truthy(password) && found.Done? && found.value.Some? && passwordMatches == Done(true)
    ensures r.status == 200 ==> r.body == ProfileOf(found.value.value, Some(sign(found.value.value.id)))
    ensures r.status == 401 <==>
      Truthy(email) && Truthy(password)
      && (found == Done(None) || (found.Done? && found.value.Some? && passwordMatches == Done(false)))
    ensures r.status == 401 ==> r == InvalidCredentials
    ensures r.status == 500 <==>
      Truthy(email) && Truthy(password)
      && (found.Threw? || (found.Done? && found.value.Some? && passwordMatches.Threw?))
    ensures r.status == 500 ==> r.body == AuthMessage("Server error during login")
  {
    if !Truthy(email) || !Truthy(password) then
      AuthResponse(400, AuthMessage("Please provide email and password"))
    else match found
      case Threw => AuthResponse(500, AuthMessage("Server error during login"))
      case Done(None) => InvalidCredentials
      case Done(Some(u)) =>
        match passwordMatches
        case Threw => AuthResponse(500, AuthMessage("Server error during login"))
        case Done(false) => InvalidCredentials
        case Done(true) => AuthResponse(200, ProfileOf(u, Some(sign(u.id))))
  }

  /** A failed login does not reveal whether the email is registered: an unknown
      email and a wrong password for a known one get the same 401 response. */
  lemma LoginFailuresIndistinguishable(email: Option<string>, password: Option<string>, u: UserRecord,
                                       anyCheck: Io<bool>, sign: string -> string)
    requires Truthy(email) && Truthy(password)
    ensures Login(email, password, Done(None), anyCheck, sign)
         == Login(email, password, Done(Some(u)), Done(false), sign)
         == InvalidCredentials
  {
  }

  /** `getMe`: the caller's public fields, with no token. */
  function GetMe(found: Io<Option<UserRecord>>): (r: AuthResponse)
    ensures r.status == 200 <==> found.Done? && found.value.Some?
    ensures r.status == 200 ==> r.body == ProfileOf(found.value.value, None) && r.body.token.None?
    ensures found == Done(None) ==> r == AuthResponse(404, AuthMessage("User not found"))
    ensures found.Threw? ==> r == AuthResponse(500, AuthMessage("Server error"))
  {
    match found
    case Threw => AuthResponse(500, AuthMessage("Server error"))
    case Done(None) => AuthResponse(404, AuthMessage("User not found"))
    case Done(Some(u)) => AuthResponse(200, ProfileOf(u, None))
  }

  /** `getUserCount`: the count, or zero with status 500 when counting fails. */
  function GetUserCount(counted: Io<nat>): (r: AuthResponse)
    ensures r.body.UserCount?
    ensures counted.Threw? ==> r.status == 500 && r.body.count == 0
    ensures counted.Done? ==> r.status == 200 && r.body.count == counted.value
  {
    match counted
    case Threw => AuthResponse(500, UserCount(0))
    case Done(n) => AuthResponse(200, UserCount(n))
  }

  /** Signing up and logging in present the same public fields of a user; the
      current-user query presents them too, only without a token. */
  lemma ProfilesAgree(u: UserRecord, name: string, email: string, password: string, sign: string -> string)
    requires name != "" && email != "" && password != ""
    ensures Signup(Some(name), Some(email), Some(password), Done(None), Done(Some(u)), sign).body
         == Login(Some(email), Some(password), Done(Some(u)), Done(true), sign).body
    ensures GetMe(Done(Some(u))).body == Login(Some(email), Some(password), Done(Some(u)), Done(true), sign).body.(token := None)
  {
  }
}

/** The user authentication service: an access token and a refresh token
    kept in memory and mirrored in the browser's local storage, set by login
    and refresh and cleared by logout, and the claims read from them. */
module AuthService {
  import opened JsValue
  import Jwt

  const AccessTokenKey := "accessToken"
  const RefreshTokenKey := "refreshToken"

  const LoginFailed := "로그인에 실패했습니다."
  const SignupFailed := "회원가입에 실패했습니다."
  const EmailInUse := "이미 사용 중인 이메일입니다."

  /** The user id used when no token yields one. */
  const FallbackUserId := 4

  /** The browser's `localStorage`, shared by every service of the page. */
  class LocalStorage {
    var items: map<string, string>

    constructor(items: map<string, string>)
      ensures this.items == items
    {
      this.items := items;
    }

    /** `getItem(key)`: `None` where it returns `null`. */
    function GetItem(key: string): Option<string>
      reads this
    {
      if key in items then Some(items[key]) else None
    }
  }

  /** The two tokens a login or a refresh hands back. */
  datatype TokenPair = TokenPair(accessToken: string, refreshToken: string)

  /** What a login or refresh request gives: the tokens, or a failure with
      the response status (none when there was no response), the response
      body and the error's own message. */
  datatype TokenReply =
    | Tokens(tokens: TokenPair)
    | RequestFailed(status: Option<int>, body: Value, message: string)

  /** `!!token` for a token that may be `null`. */
  predicate Present(token: Option<string>) {
    token.Some? && token.value != ""
  }

  /** `error.response?.data?.message || fallback`, made a string by
      `new Error(...)`. */
  function ServerMessage(body: Value, fallback: string): string {
    JsString(Or(Get(body, "message"), Str(fallback)))
  }

  /** Memory and storage hold the same tokens. */
  predicate MirrorsStorage(accessToken: Option<string>, refreshToken: Option<string>, items: map<string, string>) {
    (if AccessTokenKey in items then Some(items[AccessTokenKey]) else None) == accessToken
    && (if RefreshTokenKey in items then Some(items[RefreshTokenKey]) else None) == refreshToken
  }

  /** Writes to other keys leave the mirror intact. */
  lemma MirrorKeptByOtherKeys(accessToken: Option<string>, refreshToken: Option<string>,
                              before: map<string, string>, after: map<string, string>)
    requires MirrorsStorage(accessToken, refreshToken, before)
    requires AccessTokenKey in before <==> AccessTokenKey in after
    requires RefreshTokenKey in before <==> RefreshTokenKey in after
    requires AccessTokenKey in before ==> after[AccessTokenKey] == before[AccessTokenKey]
    requires RefreshTokenKey in before ==> after[RefreshTokenKey] == before[RefreshTokenKey]
    ensures MirrorsStorage(accessToken, refreshToken, after)
  {
  }

  /** The user id a token yields, with 0 counted as none (`if (userId)`). */
  function TokenUserId(token: Option<string>, decoder: Jwt.Decoder): (r: Option<int>)
    ensures r.Some? ==> r.value != 0 && Present(token)
  {
    if !Present(token) then None
    else match Jwt.GetUserIdFromToken(token.value, decoder)
      case Some(id) => if id != 0 then Some(id) else None
      case None => None
  }

  /** `getCurrentUserId`: the in-memory token's id, else the stored token's,
      else 4; never a missing id and never 0. */
  function CurrentUserId(memory: Option<string>, stored: Option<string>, decoder: Jwt.Decoder): (id: int)
    ensures id != 0
    ensures id == FallbackUserId || Some(id) == TokenUserId(memory, decoder) || Some(id) == TokenUserId(stored, decoder)
    ensures TokenUserId(memory, decoder).Some? ==> id == TokenUserId(memory, decoder).value
    ensures TokenUserId(memory, decoder).None? && TokenUserId(stored, decoder).Some? ==> id == TokenUserId(stored, decoder).value
  {
    match TokenUserId(memory, decoder)
    case Some(id) => id
    case None =>
      match TokenUserId(stored, decoder)
      case Some(id) => id
      case None => FallbackUserId
  }

  /** `getUserRole`: the in-memory token's role when there is an in-memory
      token, else the stored token's, else 'USER'. */
  function UserRole(memory: Option<string>, stored: Option<string>, decoder: Jwt.Decoder): Value {
    if Present(memory) then Jwt.GetUserRoleFromToken(memory.value, decoder)
    else if Present(stored) then Jwt.GetUserRoleFromToken(stored.value, decoder)
    else Str(Jwt.DefaultRole)
  }

  /** With a token in memory the stored token is never consulted, even when
      the in-memory one has no role; with neither the role is 'USER'. */
  lemma UserRoleIgnoresStorage(memory: Option<string>, stored1: Option<string>, stored2: Option<string>, decoder: Jwt.Decoder)
    ensures Present(memory) ==> UserRole(memory, stored1, decoder) == UserRole(memory, stored2, decoder)
    ensures !Present(memory) && !Present(stored1) ==> UserRole(memory, stored1, decoder) == Str(Jwt.DefaultRole)
  {
  }

  /** What signup gives back: the user, the fixed message for a 409, and
      otherwise the server's message or the generic one. */
  datatype SignupReply = Created(user: Value) | SignupRejected(status: Option<int>, body: Value)

  function Signup(reply: SignupReply): (r: Result<Value>)
    ensures reply.Created? <==> r.Ok?
    ensures reply.SignupRejected? && reply.status == Some(409) ==> r == Failure(EmailInUse)
  {
    match reply
    case Created(user) => Ok(user)
    case SignupRejected(status, body) =>
      if status == Some(409) then Failure(EmailInUse) else Failure(ServerMessage(body, SignupFailed))
  }

  class Auth {
    var accessToken: Option<string>
    var refreshToken: Option<string>
    const storage: LocalStorage
    const decoder: Jwt.Decoder

    /** Memory mirrors storage. */
    predicate Mirrored()
      reads this, storage
    {
      MirrorsStorage(accessToken, refreshToken, storage.items)
    }

    /** The service starts from the stored tokens. */
    constructor(storage: LocalStorage, decoder: Jwt.Decoder)
      ensures this.storage == storage && this.decoder == decoder
      ensures accessToken == storage.GetItem(AccessTokenKey) && refreshToken == storage.GetItem(RefreshTokenKey)
      ensures Mirrored()
    {
      this.storage := storage;
      this.decoder := decoder;
      accessToken := storage.GetItem(AccessTokenKey);
      refreshToken := storage.GetItem(RefreshTokenKey);
    }

    /** Store a token pair in memory and in storage. */
    method SaveTokens(tokens: TokenPair)
      modifies this, storage
      ensures accessToken == Some(tokens.accessToken) && refreshToken == Some(tokens.refreshToken)
      ensures storage.items == old(storage.items)[AccessTokenKey := tokens.accessToken][RefreshTokenKey := tokens.refreshToken]
      ensures Mirrored()
    {
      accessToken := Some(tokens.accessToken);
      refreshToken := Some(tokens.refreshToken);
      storage.items := storage.items[AccessTokenKey := tokens.accessToken];
      storage.items := storage.items[RefreshTokenKey := tokens.refreshToken];
    }

    /** `login`: a success stores both tokens; a failure changes nothing
        and reports the server's message or the generic one. */
    method Login(reply: TokenReply) returns (r: Result<TokenPair>)
      modifies this, storage
      ensures reply.Tokens? ==>
        r == Ok(reply.tokens)
        && accessToken == Some(reply.tokens.accessToken) && refreshToken == Some(reply.tokens.refreshToken)
        && storage.items == old(storage.items)[AccessTokenKey := reply.tokens.accessToken][RefreshTokenKey := reply.tokens.refreshToken]
        && Mirrored() && IsAuthenticated() == (reply.tokens.accessToken != "")
      ensures reply.RequestFailed? ==>
        r == Failure(ServerMessage(reply.body, LoginFailed))
        && accessToken == old(accessToken) && refreshToken == old(refreshToken) && storage.items == old(storage.items)
    {
      match reply
      case Tokens(tokens) =>
        SaveTokens(tokens);
        r := Ok(tokens);
      case RequestFailed(_, body, _) =>
        r := Failure(ServerMessage(body, LoginFailed));
    }

    /** `logout`: both fields null and both keys removed. */
    method Logout()
      modifies this, storage
      ensures accessToken == None && refreshToken == None
      ensures storage.items == old(storage.items) - {AccessTokenKey, RefreshTokenKey}
      ensures Mirrored() && !IsAuthenticated()
    {
      accessToken := None;
      refreshToken := None;
      storage.items := storage.items - {AccessTokenKey};
      storage.items := storage.items - {RefreshTokenKey};
    }

    /** `refreshAccessToken`: nothing without a refresh token; a success
        stores the new pair; a failure logs out. */
    method RefreshAccessToken(reply: TokenReply) returns (r: Option<TokenPair>)
      modifies this, storage
      ensures !Present(old(refreshToken)) ==>
        r == None
        && accessToken == old(accessToken) && refreshToken == old(refreshToken) && storage.items == old(storage.items)
      ensures Present(old(refreshToken)) && reply.Tokens? ==>
        r == Some(reply.tokens)
        && accessToken == Some(reply.tokens.accessToken) && refreshToken == Some(reply.tokens.refreshToken)
        && storage.items == old(storage.items)[AccessTokenKey := reply.tokens.accessToken][RefreshTokenKey := reply.tokens.refreshToken]
      ensures Present(old(refreshToken)) && reply.RequestFailed? ==>
        r == None
        && accessToken == None && refreshToken == None
        && storage.items == old(storage.items) - {AccessTokenKey, RefreshTokenKey}
      ensures old(Mirrored()) ==> Mirrored()
    {
      if !Present(refreshToken) {
        return None;
      }
      match reply
      case Tokens(tokens) =>
        SaveTokens(tokens);
        r := Some(tokens);
      case RequestFailed(_, _, _) =>
        Logout();
        r := None;
    }

    /** `isAuthenticated`: a non-empty access token in memory. */
    function IsAuthenticated(): bool
      reads this
    {
      Present(accessToken)
    }

    function GetCurrentUserId(): int
      reads this, storage
    {
      CurrentUserId(accessToken, storage.GetItem(AccessTokenKey), decoder)
    }

    function GetUserRole(): Value
      reads this, storage
    {
      UserRole(accessToken, storage.GetItem(AccessTokenKey), decoder)
    }
  }
}

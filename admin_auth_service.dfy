/** The administrator authentication service: its own pair of tokens under
    its own storage keys, accepted only when the access token carries the
    ADMIN role. */
module AdminAuthService {
  import opened JsValue
  import Jwt
  import opened AuthService

  const AdminTokenKey := "admin_access_token"
  const AdminRefreshKey := "admin_refresh_token"
  const AdminRole := "ADMIN"

  const AdminRequired := "관리자 권한이 필요합니다."
  const BadCredentials := "이메일 또는 비밀번호가 올바르지 않습니다."

  datatype AdminLoginResponse = AdminLoginResponse(accessToken: string, refreshToken: string, userId: int, role: Value)

  /** A token whose role claim is ADMIN. */
  predicate IsAdminToken(token: string, decoder: Jwt.Decoder) {
    Jwt.GetUserRoleFromToken(token, decoder) == Str(AdminRole)
  }

  /** The empty token decodes to nothing and so is never an admin token. */
  lemma EmptyTokenIsNotAdmin(decoder: Jwt.Decoder)
    ensures !IsAdminToken("", decoder)
  {
  }

  /** `getCurrentAdminId` for a token that may be null. */
  function AdminId(token: Option<string>, decoder: Jwt.Decoder): Option<int> {
    if !Present(token) then None else Jwt.GetUserIdFromToken(token.value, decoder)
  }

  /** The message a failed login reports: the fixed one for a 401, else the
      error's own message, else the generic one. */
  function LoginFailure(status: Option<int>, message: string): string {
    if status == Some(401) then BadCredentials
    else if message != "" then message
    else LoginFailed
  }

  class AdminAuth {
    var accessToken: Option<string>
    var refreshToken: Option<string>
    const storage: LocalStorage
    const decoder: Jwt.Decoder

    constructor(storage: LocalStorage, decoder: Jwt.Decoder)
      ensures this.storage == storage && this.decoder == decoder
      ensures accessToken == storage.GetItem(AdminTokenKey) && refreshToken == storage.GetItem(AdminRefreshKey)
    {
      this.storage := storage;
      this.decoder := decoder;
      accessToken := storage.GetItem(AdminTokenKey);
      refreshToken := storage.GetItem(AdminRefreshKey);
    }

    method SaveTokens(tokens: TokenPair)
      modifies this, storage
      ensures accessToken == Some(tokens.accessToken) && refreshToken == Some(tokens.refreshToken)
      ensures storage.items == old(storage.items)[AdminTokenKey := tokens.accessToken][AdminRefreshKey := tokens.refreshToken]
    {
      accessToken := Some(tokens.accessToken);
      refreshToken := Some(tokens.refreshToken);
      storage.items := storage.items[AdminTokenKey := tokens.accessToken];
      storage.items := storage.items[AdminRefreshKey := tokens.refreshToken];
    }

    /** `login`: tokens without the ADMIN role are refused and nothing is
        stored; an admin's tokens are stored and the service is then
        authenticated. The id defaults to 0 (`userId || 0`). */
    method Login(reply: TokenReply) returns (r: Result<AdminLoginResponse>)
      modifies this, storage
      ensures reply.Tokens? && IsAdminToken(reply.tokens.accessToken, decoder) ==>
        (var id := Jwt.GetUserIdFromToken(reply.tokens.accessToken, decoder);
         r == Ok(AdminLoginResponse(reply.tokens.accessToken, reply.tokens.refreshToken,
                                    if id.Some? then id.value else 0, Str(AdminRole)))
         && accessToken == Some(reply.tokens.accessToken) && refreshToken == Some(reply.tokens.refreshToken)
         && storage.items == old(storage.items)[AdminTokenKey := reply.tokens.accessToken][AdminRefreshKey := reply.tokens.refreshToken]
         && IsAuthenticated())
      ensures reply.Tokens? && !IsAdminToken(reply.tokens.accessToken, decoder) ==>
        r == Failure(AdminRequired)
        && accessToken == old(accessToken) && refreshToken == old(refreshToken) && storage.items == old(storage.items)
      ensures reply.RequestFailed? ==>
        r == Failure(LoginFailure(reply.status, reply.message))
        && accessToken == old(accessToken) && refreshToken == old(refreshToken) && storage.items == old(storage.items)
    {
      match reply
      case Tokens(tokens) =>
        var role := Jwt.GetUserRoleFromToken(tokens.accessToken, decoder);
        var userId := Jwt.GetUserIdFromToken(tokens.accessToken, decoder);
        if role != Str(AdminRole) {
          r := Failure(AdminRequired);
          return;
        }
        EmptyTokenIsNotAdmin(decoder);
        SaveTokens(tokens);
        r := Ok(AdminLoginResponse(tokens.accessToken, tokens.refreshToken,
                                   if userId.Some? then userId.value else 0, role));
      case RequestFailed(status, _, message) =>
        r := Failure(LoginFailure(status, message));
    }

    /** `logout`: both fields null and both admin keys removed; the user
        service's keys are left alone. */
    method Logout()
      modifies this, storage
      ensures accessToken == None && refreshToken == None
      ensures storage.items == old(storage.items) - {AdminTokenKey, AdminRefreshKey}
      ensures !IsAuthenticated()
    {
      accessToken := None;
      refreshToken := None;
      storage.items := storage.items - {AdminTokenKey};
      storage.items := storage.items - {AdminRefreshKey};
    }

    /** `isAdmin`: false without a token, else whether its role is ADMIN. */
    predicate IsAdmin()
      reads this
    {
      Present(accessToken) && IsAdminToken(accessToken.value, decoder)
    }

    /** `isAuthenticated`: a token and the ADMIN role. */
    predicate IsAuthenticated()
      reads this
    {
      Present(accessToken) && IsAdmin()
    }

    function GetCurrentAdminId(): Option<int>
      reads this
    {
      AdminId(accessToken, decoder)
    }

    /** `verifyAdminSession`: false without a token, else whether the
        verification request answered 200 (`status` is none when it
        failed). */
    function VerifyAdminSession(status: Option<int>): bool
      reads this
    {
      Present(accessToken) && status == Some(200)
    }

    /** `refreshAdminToken`: false without a refresh token; a refreshed token
        that is not an admin's, or a failed request, logs out. */
    method RefreshAdminToken(reply: TokenReply) returns (ok: bool)
      modifies this, storage
      ensures !Present(old(refreshToken)) ==>
        !ok && accessToken == old(accessToken) && refreshToken == old(refreshToken) && storage.items == old(storage.items)
      ensures Present(old(refreshToken)) && reply.Tokens? && IsAdminToken(reply.tokens.accessToken, decoder) ==>
        ok && accessToken == Some(reply.tokens.accessToken) && refreshToken == Some(reply.tokens.refreshToken)
        && storage.items == old(storage.items)[AdminTokenKey := reply.tokens.accessToken][AdminRefreshKey := reply.tokens.refreshToken]
      ensures Present(old(refreshToken)) && (reply.RequestFailed? || !IsAdminToken(reply.tokens.accessToken, decoder)) ==>
        !ok && accessToken == None && refreshToken == None
        && storage.items == old(storage.items) - {AdminTokenKey, AdminRefreshKey}
      ensures ok <==> IsAuthenticated() && Present(old(refreshToken)) && reply.Tokens?
    {
      if !Present(refreshToken) {
        return false;
      }
      match reply
      case Tokens(tokens) =>
        if !IsAdminToken(tokens.accessToken, decoder) {
          Logout();
          return false;
        }
        EmptyTokenIsNotAdmin(decoder);
        SaveTokens(tokens);
        ok := true;
      case RequestFailed(_, _, _) =>
        Logout();
        ok := false;
    }
  }

  /** An authenticated administrator is exactly one whose token is an
      admin's: the token check inside `isAuthenticated` adds nothing. */
  lemma AuthenticatedIffAdmin(admin: AdminAuth)
    ensures admin.IsAuthenticated() <==> admin.IsAdmin()
  {
  }

  /** The two services keep their tokens under different keys, so whatever
      the admin service writes leaves the user service's mirror intact. */
  lemma AdminWritesKeepUserMirror(accessToken: Option<string>, refreshToken: Option<string>,
                                  items: map<string, string>, adminAccess: string, adminRefresh: string)
    requires MirrorsStorage(accessToken, refreshToken, items)
    ensures MirrorsStorage(accessToken, refreshToken, items[AdminTokenKey := adminAccess][AdminRefreshKey := adminRefresh])
    ensures MirrorsStorage(accessToken, refreshToken, items - {AdminTokenKey, AdminRefreshKey})
  {
    MirrorKeptByOtherKeys(accessToken, refreshToken, items, items[AdminTokenKey := adminAccess][AdminRefreshKey := adminRefresh]);
    MirrorKeptByOtherKeys(accessToken, refreshToken, items, items - {AdminTokenKey, AdminRefreshKey});
  }
}

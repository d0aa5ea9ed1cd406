/**
 * The session store of src/contexts/AuthContext.js: the current `auth`
 * value and the two storage tiers that persist the raw JWT, with the
 * operations boot, login, register, saveToken, clearToken and logout.
 * The backend call is an input (`ServiceResult`) and `jwtDecode` a
 * partial function passed in (`Decoder`).
 */
module AuthContext {
  import opened Wrappers
  import opened Storage

  /** The claims of a decoded JWT, claim name to value. */
  type Claims = map<string, string>

  /**
   * The `auth` state: null, the `{ token }` wrapper rebuilt at boot from
   * storage (never decoded), or the decoded claims set by login/register.
   */
  datatype Auth = Null | Restored(token: string) | Decoded(claims: Claims)

  /**
   * What awaiting `loginService.login` or `loginService.register` gives:
   * a rejection, or a response object whose `accessToken` may be missing
   * (None also covers a null response).
   */
  datatype ServiceResult = Rejected | Responded(accessToken: Option<string>)

  /** `jwtDecode`: the claims of a token, or None where it throws. */
  type Decoder = string -> Option<Claims>

  /**
   * The initial `auth` state: `{ token }` for the stored token, the session
   * tier winning over the local tier, and null when neither tier holds a
   * non-empty token.
   */
  function InitialAuth(session: Tier, local: Tier): (a: Auth)
    ensures a.Null? || a.Restored?
    ensures a.Restored? <==> Truthy(GetItem(session, TokenKey)) || Truthy(GetItem(local, TokenKey))
    ensures Truthy(GetItem(session, TokenKey)) ==> a == Restored(session[TokenKey])
    ensures !Truthy(GetItem(session, TokenKey)) && Truthy(GetItem(local, TokenKey)) ==> a == Restored(local[TokenKey])
  {
    var token := StoredToken(session, local);
    if Truthy(token) then Restored(token.value) else Null
  }

  /**
   * The checks login and register make before touching any state: the
   * service must not reject, `accessToken` must be present and non-empty,
   * and `jwtDecode` must not throw. Gives the raw token and its claims.
   */
  function AcceptToken(data: ServiceResult, decode: Decoder): (r: Option<(string, Claims)>)
    ensures r.Some? <==> data.Responded? && Truthy(data.accessToken) && decode(data.accessToken.value).Some?
    ensures r.Some? ==> r.value.0 == data.accessToken.value && decode(r.value.0) == Some(r.value.1)
  {
    match data
    case Rejected => None
    case Responded(accessToken) =>
      if !Truthy(accessToken) then None
      else match decode(accessToken.value)
        case None => None
        case Some(claims) => Some((accessToken.value, claims))
  }

  class AuthProvider {
    var auth: Auth
    var sessionStorage: Tier
    var localStorage: Tier

    /** Boot: the provider mounts over whatever the two tiers hold. */
    constructor (session: Tier, local: Tier)
      ensures sessionStorage == session && localStorage == local
      ensures auth == InitialAuth(session, local)
    {
      sessionStorage, localStorage := session, local;
      auth := InitialAuth(session, local);
    }

    /** Writes the token to the local tier when remembered, else to the session tier; the other tier is untouched. */
    method SaveToken(token: string, rememberMe: bool)
      modifies this`sessionStorage, this`localStorage
      ensures rememberMe ==> localStorage == old(localStorage)[TokenKey := token] && sessionStorage == old(sessionStorage)
      ensures !rememberMe ==> sessionStorage == old(sessionStorage)[TokenKey := token] && localStorage == old(localStorage)
    {
      if rememberMe {
        localStorage := localStorage[TokenKey := token];
      } else {
        sessionStorage := sessionStorage[TokenKey := token];
      }
    }

    /** Removes the token from both tiers; every other key is kept. */
    method ClearToken()
      modifies this`sessionStorage, this`localStorage
      ensures localStorage == old(localStorage) - {TokenKey}
      ensures sessionStorage == old(sessionStorage) - {TokenKey}
    {
      localStorage := localStorage - {TokenKey};
      sessionStorage := sessionStorage - {TokenKey};
    }

    /**
     * login: succeeds exactly when the token is accepted; then `auth` is the
     * decoded claims and the raw token is in the tier `rememberMe` chooses.
     * Every failure is reported as false with nothing changed.
     */
    method Login(data: ServiceResult, rememberMe: bool, decode: Decoder) returns (ok: bool)
      modifies this
      ensures ok <==> AcceptToken(data, decode).Some?
      ensures ok ==> auth == Decoded(AcceptToken(data, decode).value.1)
      ensures ok && rememberMe ==>
        localStorage == old(localStorage)[TokenKey := data.accessToken.value] && sessionStorage == old(sessionStorage)
      ensures ok && !rememberMe ==>
        sessionStorage == old(sessionStorage)[TokenKey := data.accessToken.value] && localStorage == old(localStorage)
      ensures !ok ==> auth == old(auth) && sessionStorage == old(sessionStorage) && localStorage == old(localStorage)
    {
      match data {
        case Rejected =>
          return false;
        case Responded(accessToken) =>
          if !Truthy(accessToken) {
            return false;
          }
          var decoded := decode(accessToken.value);
          if decoded.None? {
            return false;
          }
          auth := Decoded(decoded.value);
          SaveToken(accessToken.value, rememberMe);
          return true;
      }
    }

    /**
     * register: the same contract as login, with `saveToken`'s default
     * `rememberMe = false`, so a new token always goes to the session tier.
     */
    method Register(data: ServiceResult, decode: Decoder) returns (ok: bool)
      modifies this
      ensures ok <==> AcceptToken(data, decode).Some?
      ensures ok ==> auth == Decoded(AcceptToken(data, decode).value.1)
      ensures ok ==>
        sessionStorage == old(sessionStorage)[TokenKey := data.accessToken.value] && localStorage == old(localStorage)
      ensures !ok ==> auth == old(auth) && sessionStorage == old(sessionStorage) && localStorage == old(localStorage)
    {
      match data {
        case Rejected =>
          return false;
        case Responded(accessToken) =>
          if !Truthy(accessToken) {
            return false;
          }
          var decoded := decode(accessToken.value);
          if decoded.None? {
            return false;
          }
          auth := Decoded(decoded.value);
          SaveToken(accessToken.value, false);
          return true;
      }
    }

    /** logout: `auth` becomes null and the token leaves both tiers, whichever held it. */
    method Logout()
      modifies this
      ensures auth == Null
      ensures localStorage == old(localStorage) - {TokenKey}
      ensures sessionStorage == old(sessionStorage) - {TokenKey}
    {
      auth := Null;
      ClearToken();
    }
  }

  /**
   * Log in, then restart the browser: the session tier is lost, the local
   * tier survives, and a new provider boots. A remembered login comes back
   * as `{ token }`; otherwise boot sees the local tier as it was before the
   * login, so a token remembered by an earlier login is restored instead.
   */
  method LoginThenRestart(session: Tier, local: Tier, data: ServiceResult, rememberMe: bool, decode: Decoder)
    returns (ok: bool, restored: Auth)
    ensures ok <==> AcceptToken(data, decode).Some?
    ensures ok && rememberMe ==> restored == Restored(data.accessToken.value)
    ensures !(ok && rememberMe) ==> restored == InitialAuth(map[], local)
  {
    var provider := new AuthProvider(session, local);
    ok := provider.Login(data, rememberMe, decode);
    var rebooted := new AuthProvider(map[], provider.localStorage);
    restored := rebooted.auth;
  }

  /**
   * Log in, then reload the same tab (both tiers survive). A login that was
   * not remembered comes back; a remembered one comes back only if the
   * session tier held no token, which otherwise shadows the new one.
   */
  method LoginThenReload(session: Tier, local: Tier, data: ServiceResult, rememberMe: bool, decode: Decoder)
    returns (ok: bool, restored: Auth)
    ensures ok <==> AcceptToken(data, decode).Some?
    ensures ok && (!rememberMe || !Truthy(GetItem(session, TokenKey))) ==> restored == Restored(data.accessToken.value)
    ensures ok && rememberMe && Truthy(GetItem(session, TokenKey)) ==> restored == Restored(session[TokenKey])
    ensures !ok ==> restored == InitialAuth(session, local)
  {
    var provider := new AuthProvider(session, local);
    ok := provider.Login(data, rememberMe, decode);
    var rebooted := new AuthProvider(provider.sessionStorage, provider.localStorage);
    restored := rebooted.auth;
  }

  /** Logging out, then booting again over the same tiers, gives a null `auth` whatever the tiers held. */
  method LogoutThenBoot(session: Tier, local: Tier) returns (restored: Auth)
    ensures restored == Null
  {
    var provider := new AuthProvider(session, local);
    provider.Logout();
    var rebooted := new AuthProvider(provider.sessionStorage, provider.localStorage);
    NoTokenAfterRemoval(session, local);
    restored := rebooted.auth;
  }

  /** Logging out a second time changes nothing: logout is idempotent. */
  method LogoutTwice(session: Tier, local: Tier) returns (once: (Auth, Tier, Tier), twice: (Auth, Tier, Tier))
    ensures once == twice
    ensures once == (Null, session - {TokenKey}, local - {TokenKey})
  {
    var provider := new AuthProvider(session, local);
    provider.Logout();
    once := (provider.auth, provider.sessionStorage, provider.localStorage);
    provider.Logout();
    twice := (provider.auth, provider.sessionStorage, provider.localStorage);
    assert once.1 - {TokenKey} == once.1;
    assert once.2 - {TokenKey} == once.2;
  }
}

/**
 * The browser's two Web Storage tiers as the client uses them: `sessionStorage`
 * (cleared when the tab closes) and `localStorage` (survives restarts), each a
 * map from key to string. Only the key "jwtToken" is ever read or written.
 */
module Storage {
  import opened Wrappers

  type Tier = map<string, string>

  const TokenKey: string := "jwtToken"

  /** `storage.getItem(key)`: the stored string, or null (None) when the key is absent. */
  function GetItem(tier: Tier, key: string): (r: Option<string>)
    ensures r.Some? <==> key in tier
    ensures r.Some? ==> r.value == tier[key]
  {
    if key in tier then Some(tier[key]) else None
  }

  /** JavaScript truthiness of a string-or-null value: null and "" are falsy. */
  predicate Truthy(v: Option<string>)
  {
    v.Some? && v.value != ""
  }

  /** JavaScript `a || b`: `a` when it is truthy, otherwise `b` (whatever `b` is). */
  function Or(a: Option<string>, b: Option<string>): (r: Option<string>)
    ensures Truthy(r) <==> Truthy(a) || Truthy(b)
    ensures Truthy(a) ==> r == a
    ensures !Truthy(a) ==> r == b
  {
    if Truthy(a) then a else b
  }

  /**
   * `sessionStorage.getItem("jwtToken") || localStorage.getItem("jwtToken")`,
   * the lookup written out in both src/contexts/AuthContext.js and
   * src/services/apiService.js: the session tier wins whenever it holds a
   * non-empty token.
   */
  function StoredToken(session: Tier, local: Tier): (r: Option<string>)
    ensures Truthy(r) <==> Truthy(GetItem(session, TokenKey)) || Truthy(GetItem(local, TokenKey))
    ensures Truthy(GetItem(session, TokenKey)) ==> r == Some(session[TokenKey])
    ensures !Truthy(GetItem(session, TokenKey)) ==> r == GetItem(local, TokenKey)
  {
    Or(GetItem(session, TokenKey), GetItem(local, TokenKey))
  }

  /** After both tiers lose "jwtToken" (logout), no stored token is found. */
  lemma NoTokenAfterRemoval(session: Tier, local: Tier)
    ensures !Truthy(StoredToken(session - {TokenKey}, local - {TokenKey}))
  {
  }
}

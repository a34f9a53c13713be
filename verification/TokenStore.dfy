/**
  Stored tokens (pkg/oauth/store.go) and the bookkeeping of one refresh answer
  (pkg/oauth/flow.go, `refresh`).  Times are whole seconds; an absent expiry is
  Go's zero time, which the store treats as "fresh until a server says no".
*/
module TokenStore {
  import opened Wrappers

  const EXPIRY_SKEW := 60

  datatype Token = Token(
    access: string,
    refresh: string,
    expiry: Option<int>,
    issuer: string,
    client: string,
    scopes: seq<string>)

  predicate Fresh(t: Option<Token>, now: int) {
    && t.Some?
    && t.value.access != ""
    && (t.value.expiry.None? || t.value.expiry.value - now > EXPIRY_SKEW)
  }

  /** A 200 answer of the token endpoint; `scope` is None when the field is absent. */
  datatype Grant = Grant(access: string, refresh: string, expiresIn: int, scope: Option<seq<string>>)

  /** The token kept after a successful refresh of `stored`. */
  function Refreshed(stored: Token, g: Grant, issuer: string, client: string, now: int): Token {
    Token(
      g.access,
      if g.refresh != "" then g.refresh else stored.refresh,
      if g.expiresIn > 0 then Some(now + g.expiresIn) else None,
      issuer,
      client,
      if g.scope.Some? then g.scope.value else stored.scopes)
  }

  /**
    A refreshed token is used until its last minute, and for as long as the
    server likes when it was given no life span; the refresh token and the
    scopes it came without are the old ones.
  */
  lemma RefreshedLasts(stored: Token, g: Grant, issuer: string, client: string, granted: int, now: int)
    requires g.access != ""
    ensures var t := Refreshed(stored, g, issuer, client, granted);
      && (Fresh(Some(t), now) <==> g.expiresIn <= 0 || now + 60 < granted + g.expiresIn)
      && t.access == g.access && t.refresh in {g.refresh, stored.refresh} && (t.refresh == "" <==> g.refresh == stored.refresh == "")
      && (g.scope.None? ==> t.scopes == stored.scopes) && (g.scope.Some? ==> t.scopes == g.scope.value)
  {
  }
}

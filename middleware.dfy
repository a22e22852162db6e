/** The per-request checks: Sanctum's bearer-token guard, the created-at
    expiry middleware (which revokes what it finds expired), the `refresh`
    ability gate and Laravel's email-verification gate. Each answers
    `Continue` or stops the request with a response. */
module Middleware {
  import opened Domain
  import opened Store

  const Unauthenticated := "Unauthenticated."
  const TokenExpired := "Token expirado"
  const RefreshRefused := "Token não autorizado para refresh"
  const EmailNotVerified := "Your email address is not verified."
  const TooManyAttempts := "Too Many Attempts."

  datatype Verdict = Continue | Stop(resp: Response)

  /** A token the guard can hand to later stages: stored, and owned by a
      stored user. */
  predicate Resolved(s: State, id: TokenId) {
    id in s.tokens && s.tokens[id].owner in s.users
  }

  /** `auth:sanctum`: the presented token is stored, its owner exists, and
      its `expires_at`, if any, is not in the past. */
  function Authenticate(s: State, bearer: Option<TokenId>, now: int): (r: Option<TokenId>)
    ensures r.Some? ==> r == bearer && Resolved(s, r.value)
    ensures r.Some? <==>
      && bearer.Some? && Resolved(s, bearer.value)
      && (s.tokens[bearer.value].expiresAt.None? || now <= s.tokens[bearer.value].expiresAt.value)
  {
    if bearer.Some? && Resolved(s, bearer.value) then
      var t := s.tokens[bearer.value];
      if t.expiresAt.None? || !(t.expiresAt.value < now) then bearer else None
    else None
  }

  // ----------------------------------------------------- ExpireSanctumToken

  /** `$token && $expiration && $token->created_at->addMinutes($expiration)->isPast()`:
      an expiration of null or 0 switches the check off. */
  predicate Expired(t: Token, expiration: Option<int>, now: int) {
    expiration.Some? && expiration.value != 0 && t.createdAt + expiration.value < now
  }

  /** The middleware's decision and the stores afterwards; `current` is the
      request's token, if any. */
  function ExpireCheck(s: State, current: Option<TokenId>, expiration: Option<int>, now: int): (r: (Verdict, State))
    requires current.Some? ==> current.value in s.tokens
    ensures current.None? ==> r == (Continue, s)
    ensures expiration.None? || expiration == Some(0) ==> r == (Continue, s)
    ensures r.0.Stop? <==> current.Some? && Expired(s.tokens[current.value], expiration, now)
    ensures r.0.Continue? ==> r.1 == s
    ensures r.0.Stop? ==>
      && r.0.resp == Response(401, Message(TokenExpired))
      && r.1.tokens.Keys == s.tokens.Keys - {current.value}
      && (forall id :: id in r.1.tokens ==> r.1.tokens[id] == s.tokens[id])
      && r.1.users == s.users
    ensures Valid(s) ==> Valid(r.1)
  {
    if current.Some? && Expired(s.tokens[current.value], expiration, now) then
      (Stop(Response(401, Message(TokenExpired))), Revoke(s, current.value))
    else
      (Continue, s)
  }

  /** The middleware itself: deletes the expired token, then answers. */
  method ExpireSanctumToken(db: Database, current: Option<TokenId>, expiration: Option<int>, now: int)
    returns (v: Verdict)
    requires current.Some? ==> current.value in db.tokens
    modifies db
    ensures (v, db.State()) == ExpireCheck(old(db.State()), current, expiration, now)
  {
    if current.Some? && Expired(db.tokens[current.value], expiration, now) {
      db.DeleteToken(current.value);
      return Stop(Response(401, Message(TokenExpired)));
    }
    v := Continue;
  }

  /** Sanctum's guard when `sanctum.expiration` is set: besides what
      `Authenticate` asks, a token is accepted only while
      `created_at > now - expiration`. A null or 0 setting switches the
      test off. */
  function GuardWithExpiration(s: State, bearer: Option<TokenId>, expiration: Option<int>, now: int): (r: Option<TokenId>)
    ensures expiration.None? || expiration == Some(0) ==> r == Authenticate(s, bearer, now)
    ensures r.Some? <==>
      && Authenticate(s, bearer, now).Some?
      && (expiration.None? || expiration.value == 0 || now < s.tokens[bearer.value].createdAt + expiration.value)
    ensures r.Some? ==> r == bearer
  {
    var a := Authenticate(s, bearer, now);
    if a.Some? && expiration.Some? && expiration.value != 0
       && !(s.tokens[a.value].createdAt + expiration.value > now)
    then None
    else a
  }

  /** With the same setting, a token the guard accepts is never one the
      expiry middleware finds expired: behind `auth:sanctum` the middleware
      lets every request through and deletes nothing. */
  lemma ExpiryUnreachableBehindGuard(s: State, bearer: Option<TokenId>, expiration: Option<int>, now: int)
    requires GuardWithExpiration(s, bearer, expiration, now).Some?
    ensures ExpireCheck(s, bearer, expiration, now) == (Continue, s)
  {
  }

  // ------------------------------------------ EnsureTokenHasRefreshAbility

  /** `! $request->user()?->tokenCan('refresh')`: with no user the null-safe
      call yields null, so the request is refused with 403 as well. The
      gate returns no state: it changes nothing. */
  function RefreshAbility(s: State, auth: Option<TokenId>): (v: Verdict)
    requires auth.Some? ==> auth.value in s.tokens
    ensures v == Continue <==> auth.Some? && TokenCan(s.tokens[auth.value], "refresh")
    ensures v.Stop? ==> v.resp == Response(403, Message(RefreshRefused))
  {
    if auth.Some? && TokenCan(s.tokens[auth.value], "refresh") then Continue
    else Stop(Response(403, Message(RefreshRefused)))
  }

  // ------------------------------------------------------------- verified

  /** Whether the owner of token `id` has verified their email. */
  predicate OwnerVerified(s: State, id: TokenId) {
    id in s.tokens && s.tokens[id].owner in s.users && s.users[s.tokens[id].owner].HasVerifiedEmail()
  }

  /** `verified` (EnsureEmailIsVerified): no user, or a user whose email is
      unverified, is refused with 403. */
  function Verified(s: State, auth: Option<TokenId>): (v: Verdict)
    ensures v == Continue <==> auth.Some? && OwnerVerified(s, auth.value)
    ensures v.Stop? ==> v.resp == Response(403, Message(EmailNotVerified))
  {
    if auth.Some? && OwnerVerified(s, auth.value) then Continue
    else Stop(Response(403, Message(EmailNotVerified)))
  }

  /** `throttle:…`: `limited` is the rate limiter's verdict for the
      request's key. */
  function Throttle(limited: bool): (v: Verdict)
    ensures v.Stop? <==> limited
    ensures v.Stop? ==> v.resp == Response(429, Message(TooManyAttempts))
  {
    if limited then Stop(Response(429, Message(TooManyAttempts))) else Continue
  }
}

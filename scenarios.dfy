/** Properties that span several requests: what a token minted by one
    action can do at a later one, and what an action leaves behind for the
    requests after it. */
module Scenarios {
  import opened Domain
  import opened AuthRules
  import opened Middleware
  import opened Routes
  import SocialRules

  /** A successful registration's token resolves to the new user, and a
      second registration with the same email is refused and changes nothing. */
  lemma RegisterThenRegisterAgain(s: State, req: RegisterRequest, req2: RegisterRequest, now: int, later: int)
    requires Valid(s)
    requires Register(s, req, now).resp.status == 201
    requires req2.email == req.email
    ensures
      var t := Register(s, req, now);
      && Authenticate(t.post, Some(t.resp.body.token), later) == Some(t.resp.body.token)
      && t.post.tokens[t.resp.body.token].owner == req.email.value
      && Register(t.post, req2, later).resp.status == 422
      && Register(t.post, req2, later).post == t.post
  {
  }

  /** Login's two tokens are distinct and both resolve to the user. */
  lemma LoginTokensResolve(s: State, req: LoginRequest, now: int, later: int)
    requires Valid(s)
    requires Login(s, req, now).resp.status == 200
    ensures
      var t := Login(s, req, now);
      var a, r := t.resp.body.access, t.resp.body.refresh;
      && a != r
      && Authenticate(t.post, Some(a), later) == Some(a)
      && Authenticate(t.post, Some(r), later) == Some(r)
      && t.post.tokens[a].owner == t.post.tokens[r].owner == req.email.value
  {
  }

  /** Login's access token holds only `access`, so /refresh refuses it with
      403 whether or not the user is verified, and changes nothing; the rate
      limiter runs first and may answer 429 instead. */
  lemma LoginAccessTokenRefusedByRefresh(s: State, req: LoginRequest, now: int, later: int, limited: bool)
    requires Valid(s)
    requires Login(s, req, now).resp.status == 200
    ensures
      var t := Login(s, req, now);
      RefreshEndpoint(t.post, Request(Some(t.resp.body.access), limited), later)
        == Transition(if limited then Response(429, Message(TooManyAttempts))
                      else Response(403, Message(RefreshRefused)), t.post)
  {
    var t := Login(s, req, now);
    var a := t.resp.body.access;
    assert LiveBearer(t.post, Request(Some(a), limited), later);
    assert !TokenCan(t.post.tokens[a], "refresh");
  }

  /** The token a registration mints holds `*`, so it passes the refresh
      gate; the new user is unverified, so /refresh stops at the
      verification gate instead. */
  lemma RegisterTokenStopsAtVerification(s: State, req: RegisterRequest, now: int, later: int)
    requires Valid(s)
    requires Register(s, req, now).resp.status == 201
    ensures
      var t := Register(s, req, now);
      var id := t.resp.body.token;
      && Middleware.RefreshAbility(t.post, Some(id)) == Continue
      && RefreshEndpoint(t.post, Request(Some(id), false), later)
           == Transition(Response(403, Message(EmailNotVerified)), t.post)
  {
    var t := Register(s, req, now);
    var id := t.resp.body.token;
    assert TokenCan(t.post.tokens[id], "refresh");
    assert LiveBearer(t.post, Request(Some(id), false), later);
    assert !OwnerVerified(t.post, id);
  }

  /** The token an OAuth callback mints holds `*`, so it passes the refresh
      gate. */
  lemma SocialTokenPassesRefreshGate(s: State, p: SocialRules.Provider, ex: SocialRules.Exchange, pw: string, now: int)
    requires SocialRules.Callback(s, p, ex, pw, now).resp.status == 200
    ensures
      var t := SocialRules.Callback(s, p, ex, pw, now);
      Middleware.RefreshAbility(t.post, Some(t.resp.body.token)) == Continue
  {
  }

  /** Rotation consumes the presented token: presenting it again gets 401.
      The access token the rotation minted holds `*`, so within its hour it
      can itself be presented to /refresh and rotates again. */
  lemma RotationConsumesToken(s: State, req: Request, now: int, later: int)
    requires Valid(s)
    requires RefreshEndpoint(s, req, now).resp.status == 200
    requires now <= later <= now + RefreshedAccessMinutes
    ensures
      var t := RefreshEndpoint(s, req, now);
      var a := t.resp.body.access;
      && RefreshEndpoint(t.post, req, later) == Transition(Unauth, t.post)
      && RefreshEndpoint(t.post, Request(Some(a), false), later) == AuthRules.Refresh(t.post, a, later)
  {
    var b := req.bearer.value;
    assert LiveBearer(s, req, now) && !req.limited;
    assert TokenCan(s.tokens[b], "refresh") && OwnerVerified(s, b);
    var t := RefreshEndpoint(s, req, now);
    assert t == AuthRules.Refresh(s, b, now);
    var a := t.resp.body.access;
    assert !LiveBearer(t.post, req, later);
    assert LiveBearer(t.post, Request(Some(a), false), later);
    assert OwnerVerified(t.post, a);
  }

  /** After a reset, login succeeds with the new password and is refused
      with 401 for any other password the `required` rule lets through,
      the old one included. */
  lemma ResetThenLogin(s: State, req: ResetRequest, tokenValid: bool, remember: string, other: string, now: int)
    requires Valid(s)
    requires ResetPassword(s, req, tokenValid, remember).resp.status == 200
    requires Required(Some(other)) && other != req.password.value
    ensures
      var t := ResetPassword(s, req, tokenValid, remember);
      && Login(t.post, LoginRequest(req.email, req.password), now).resp.status == 200
      && Login(t.post, LoginRequest(req.email, Some(other)), now).resp.status == 401
  {
    var t := ResetPassword(s, req, tokenValid, remember);
    var e := req.email.value;
    assert ResetErrors(req) == {};
    assert Required(req.email) && EmailShaped(e) && Required(req.password);
    assert t.post.users[e].password == Hash(req.password.value);
    assert LoginErrors(LoginRequest(req.email, req.password)) == {};
    assert LoginErrors(LoginRequest(req.email, Some(other))) == {};
    assert CredentialsMatch(t.post, e, req.password.value);
    assert !CredentialsMatch(t.post, e, other);
  }

  /** Passwords are not trimmed on input, but `required` trims before it
      tests: a password of spaces is a validation error (422 naming
      `password`), not a failed credential check, even for a stored user. */
  lemma BlankPasswordIsMissing(s: State, email: string, n: nat, now: int)
    requires email in s.users && EmailShaped(email)
    ensures
      var t := Login(s, LoginRequest(Some(email), Some(seq(n, _ => ' '))), now);
      && t.resp.status == 422
      && t.resp.body == Invalid({"password"})
      && t.post == s
  {
    var blank := seq(n, _ => ' ');
    assert forall i | 0 <= i < |blank| :: blank[i] == ' ';
    assert !Required(Some(blank));
  }

  /** Logout ends the presented token's session only: every other token
      authenticates afterwards exactly as before. */
  lemma LogoutKeepsOtherSessions(s: State, req: Request, now: int, other: TokenId, later: int)
    requires LogoutEndpoint(s, req, now).resp.status == 200
    requires Some(other) != req.bearer
    ensures
      var t := LogoutEndpoint(s, req, now);
      && Authenticate(t.post, req.bearer, later).None?
      && Authenticate(t.post, Some(other), later) == Authenticate(s, Some(other), later)
  {
    assert LiveBearer(s, req, now) && !req.limited;
  }

  /** Logout-all ends every session of the caller and no session of anyone
      else. */
  lemma LogoutAllEndsCallersSessions(s: State, req: Request, now: int, id: TokenId, later: int)
    requires LogoutAllEndpoint(s, req, now).resp.status == 200
    ensures
      var t := LogoutAllEndpoint(s, req, now);
      var owner := s.tokens[req.bearer.value].owner;
      && TokensOf(t.post, owner) == {}
      && (id in s.tokens && s.tokens[id].owner == owner ==> Authenticate(t.post, Some(id), later).None?)
      && (id in s.tokens && s.tokens[id].owner != owner ==>
            Authenticate(t.post, Some(id), later) == Authenticate(s, Some(id), later))
  {
    assert LiveBearer(s, req, now) && !req.limited;
    var t := LogoutAllEndpoint(s, req, now);
    var owner := s.tokens[req.bearer.value].owner;
    if id in s.tokens && s.tokens[id].owner == owner {
      assert id !in TokensOf(t.post, owner);
    }
    if id in s.tokens && s.tokens[id].owner != owner {
      assert id in TokensOf(s, s.tokens[id].owner);
      assert id in TokensOf(t.post, s.tokens[id].owner);
    }
  }
}

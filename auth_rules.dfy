/** What each action of the credential controller does to the stores and
    answers, as functions of the stores before the request. Validation
    collects the names of every failing field, as Laravel's validator does,
    and a failed validation answers 422 before anything is written. */
module AuthRules {
  import opened Domain
  import Passwords

  const InvalidCredentials := "Credenciais inválidas"
  const LoggedOut := "Logout realizado com sucesso"
  const LoggedOutEverywhere := "Logout realizado em todos os dispositivos."
  const ResetDone := "Senha redefinida com sucesso."
  const ResetFailed := "Erro ao redefinir a senha."
  const LinkSent := "Link de redefinição enviado para o email."
  const LinkNotSent := "Não foi possível enviar o link."
  const AlreadyVerified := "E-mail já verificado."
  const VerificationSent := "Link de verificação enviado."
  const ServerError := "Server Error"

  /** Lifetime in minutes of the access token that a refresh mints. */
  const RefreshedAccessMinutes: int := 60

  /** The `password` field of register and reset: required, equal to its
      `password_confirmation`, and accepted by the strength rule. */
  predicate PasswordFieldOk(password: Option<string>, confirmation: Option<string>, uncompromised: bool) {
    Required(password) && confirmation == password && Passwords.Accepts(password.value, uncompromised)
  }

  // ---------------------------------------------------------------- register

  datatype RegisterRequest = RegisterRequest(
    name: Option<string>,
    email: Option<string>,
    password: Option<string>,
    passwordConfirmation: Option<string>,
    uncompromised: bool)

  /** `name` required, `email` required, well formed and not yet taken,
      `password` as `PasswordFieldOk`. */
  function RegisterErrors(s: State, req: RegisterRequest): set<string> {
    (if Required(req.name) then {} else {"name"})
    + (if Required(req.email) && EmailShaped(req.email.value) && req.email.value !in s.users then {} else {"email"})
    + (if PasswordFieldOk(req.password, req.passwordConfirmation, req.uncompromised) then {} else {"password"})
  }

  function Register(s: State, req: RegisterRequest, now: int): (t: Transition)
    ensures t.resp.status == 201 || t.resp.status == 422
    ensures t.resp.status == 201 <==>
      && Required(req.name)
      && Required(req.email) && EmailShaped(req.email.value) && req.email.value !in s.users
      && PasswordFieldOk(req.password, req.passwordConfirmation, req.uncompromised)
    ensures req.email.Some? && req.email.value in s.users ==>
      t.resp.status == 422 && t.resp.body.Invalid? && "email" in t.resp.body.fields
    ensures req.password.Some? && !Passwords.Accepts(req.password.value, req.uncompromised) ==>
      t.resp.status == 422 && t.resp.body.Invalid? && "password" in t.resp.body.fields
    ensures t.resp.status == 422 ==> t.post == s
    ensures t.resp.status == 201 ==>
      var e := req.email.value;
      && OneUserAdded(s.users, t.post.users, e)
      && t.post.users[e].name == req.name.value
      && HashCheck(req.password.value, t.post.users[e].password)
      && !t.post.users[e].HasVerifiedEmail()
      && t.resp.body == Issued(s.nextId)
      && (Valid(s) ==> OnlyAdded(s.tokens, t.post.tokens, {s.nextId}))
      && s.nextId in t.post.tokens
      && t.post.tokens[s.nextId] == Token(e, "access_token", AllAbilities, now, None)
    ensures Valid(s) ==> Valid(t.post)
  {
    var errors := RegisterErrors(s, req);
    if errors != {} then
      Transition(Response(422, Invalid(errors)), s)
    else
      var u := User(req.email.value, req.name.value, Hash(req.password.value), None, None, None, None);
      var s1 := AddUser(s, u);
      Transition(Response(201, Issued(s1.nextId)), Mint(s1, u.email, "access_token", AllAbilities, now, None))
  }

  // ------------------------------------------------------------------- login

  datatype LoginRequest = LoginRequest(email: Option<string>, password: Option<string>)

  function LoginErrors(req: LoginRequest): set<string> {
    (if Required(req.email) && EmailShaped(req.email.value) then {} else {"email"})
    + (if Required(req.password) then {} else {"password"})
  }

  /** Whether the user with that email exists and the password matches
      its stored hash. */
  predicate CredentialsMatch(s: State, email: Email, password: string) {
    email in s.users && HashCheck(password, s.users[email].password)
  }

  function Login(s: State, req: LoginRequest, now: int): (t: Transition)
    ensures t.resp.status in {200, 401, 422}
    ensures t.resp.status != 200 ==> t.post == s
    ensures t.resp.status == 422 <==> LoginErrors(req) != {}
    ensures t.resp.status == 401 <==>
      LoginErrors(req) == {} && !CredentialsMatch(s, req.email.value, req.password.value)
    ensures t.resp.status == 401 ==> t.resp.body == Message(InvalidCredentials)
    ensures t.resp.status == 200 ==>
      var e, a, r := req.email.value, s.nextId, s.nextId + 1;
      && CredentialsMatch(s, e, req.password.value)
      && t.resp.body == Pair(a, r)
      && a != r
      && t.post.users == s.users
      && (Valid(s) ==> OnlyAdded(s.tokens, t.post.tokens, {a, r}))
      && a in t.post.tokens && r in t.post.tokens
      && t.post.tokens[a] == Token(e, "access_token", {"access"}, now, None)
      && t.post.tokens[r] == Token(e, "refresh_token", {"refresh"}, now, None)
    ensures Valid(s) ==> Valid(t.post)
  {
    var errors := LoginErrors(req);
    if errors != {} then
      Transition(Response(422, Invalid(errors)), s)
    else if !CredentialsMatch(s, req.email.value, req.password.value) then
      Transition(Response(401, Message(InvalidCredentials)), s)
    else
      var e := req.email.value;
      var s1 := Mint(s, e, "access_token", {"access"}, now, None);
      var s2 := Mint(s1, e, "refresh_token", {"refresh"}, now, None);
      Transition(Response(200, Pair(s.nextId, s1.nextId)), s2)
  }

  // ----------------------------------------------- refresh, logout, logout-all
  // These run behind `auth:sanctum`, so the presented token is in the store.

  /** Rotation: the presented token is deleted and an access token (all
      abilities, 60 minutes) and a refresh token (7 days) are minted for its
      owner. */
  function Refresh(s: State, current: TokenId, now: int): (t: Transition)
    requires current in s.tokens
    ensures
      var owner, a, r := s.tokens[current].owner, s.nextId, s.nextId + 1;
      && t.resp == Response(200, Pair(a, r))
      && t.post.users == s.users
      && t.post.tokens.Keys == s.tokens.Keys - {current} + {a, r}
      && (Valid(s) ==> forall id :: id in s.tokens && id != current ==> t.post.tokens[id] == s.tokens[id])
      && t.post.tokens[a] == Token(owner, "access_token", AllAbilities, now, Some(now + RefreshedAccessMinutes))
      && t.post.tokens[r] == Token(owner, "refresh_token", {"refresh"}, now, Some(now + SevenDays))
    ensures Valid(s) ==> Valid(t.post) && current !in t.post.tokens
  {
    var owner := s.tokens[current].owner;
    var s1 := Revoke(s, current);
    var s2 := Mint(s1, owner, "access_token", AllAbilities, now, Some(now + RefreshedAccessMinutes));
    var s3 := Mint(s2, owner, "refresh_token", {"refresh"}, now, Some(now + SevenDays));
    Transition(Response(200, Pair(s1.nextId, s2.nextId)), s3)
  }

  function Logout(s: State, current: TokenId): (t: Transition)
    requires current in s.tokens
    ensures t.resp == Response(200, Message(LoggedOut))
    ensures t.post.tokens.Keys == s.tokens.Keys - {current}
    ensures forall id :: id in t.post.tokens ==> t.post.tokens[id] == s.tokens[id]
    ensures t.post.users == s.users
    ensures Valid(s) ==> Valid(t.post)
  {
    Transition(Response(200, Message(LoggedOut)), Revoke(s, current))
  }

  /** Deletes every token of the caller, whichever token they presented. */
  function LogoutAll(s: State, current: TokenId): (t: Transition)
    requires current in s.tokens
    ensures t.resp == Response(200, Message(LoggedOutEverywhere))
    ensures TokensOf(t.post, s.tokens[current].owner) == {}
    ensures forall o :: o != s.tokens[current].owner ==> TokensOf(t.post, o) == TokensOf(s, o)
    ensures forall id :: id in t.post.tokens ==> id in s.tokens && t.post.tokens[id] == s.tokens[id]
    ensures t.post.users == s.users
    ensures Valid(s) ==> Valid(t.post)
  {
    Transition(Response(200, Message(LoggedOutEverywhere)), RevokeAll(s, s.tokens[current].owner))
  }

  // ---------------------------------------------------------- password reset

  datatype ResetRequest = ResetRequest(
    email: Option<string>,
    token: Option<string>,
    password: Option<string>,
    passwordConfirmation: Option<string>,
    uncompromised: bool)

  function ResetErrors(req: ResetRequest): set<string> {
    (if Required(req.email) && EmailShaped(req.email.value) then {} else {"email"})
    + (if Required(req.token) then {} else {"token"})
    + (if PasswordFieldOk(req.password, req.passwordConfirmation, req.uncompromised) then {} else {"password"})
  }

  /** The statuses `Password::reset` can report. */
  datatype BrokerStatus = PasswordReset | InvalidUser | InvalidToken

  /** The broker looks the user up by email, then checks the reset token;
      `tokenValid` is its verdict on the token (stored, matching, unexpired). */
  function Broker(s: State, email: Email, tokenValid: bool): BrokerStatus {
    if email !in s.users then InvalidUser
    else if !tokenValid then InvalidToken
    else PasswordReset
  }

  /** On PASSWORD_RESET the callback stores the new hash and a fresh
      remember token; every other outcome is 422 with nothing written. */
  function ResetPassword(s: State, req: ResetRequest, tokenValid: bool, rememberToken: string): (t: Transition)
    ensures t.resp.status == 200 || t.resp.status == 422
    ensures t.resp.status == 200 <==>
      ResetErrors(req) == {} && Broker(s, req.email.value, tokenValid) == PasswordReset
    ensures t.resp.status == 422 ==> t.post == s
    ensures ResetErrors(req) == {} && t.resp.status == 422 ==> t.resp.body == Message(ResetFailed)
    ensures t.resp.status == 200 ==>
      var e := req.email.value;
      && t.resp.body == Message(ResetDone)
      && e in s.users && t.post.users.Keys == s.users.Keys
      && HashCheck(req.password.value, t.post.users[e].password)
      && t.post.users[e].rememberToken == Some(rememberToken)
      && t.post.users[e] == s.users[e].(password := t.post.users[e].password, rememberToken := Some(rememberToken))
      && (forall x :: x in s.users && x != e ==> t.post.users[x] == s.users[x])
      && t.post.tokens == s.tokens
    ensures Valid(s) ==> Valid(t.post)
  {
    var errors := ResetErrors(req);
    if errors != {} then
      Transition(Response(422, Invalid(errors)), s)
    else
      var e := req.email.value;
      if Broker(s, e, tokenValid) == PasswordReset then
        var u := s.users[e].(password := Hash(req.password.value), rememberToken := Some(rememberToken));
        Transition(Response(200, Message(ResetDone)), SaveUser(s, e, u))
      else
        Transition(Response(422, Message(ResetFailed)), s)
  }

  // --------------------------------------------------------- forgot password

  /** The statuses `Password::sendResetLink` can report for a known user. */
  datatype LinkStatus = ResetLinkSent | ResetThrottled

  /** The answer, and whether a reset notification was sent. The stores do
      not change: the reset-token table is not part of this model. */
  function ForgotPassword(s: State, email: Option<string>, link: LinkStatus): (r: (Response, bool))
    ensures r.0.status in {200, 422, 500}
    ensures !(Required(email) && EmailShaped(email.value) && email.value in s.users) ==>
      r == (Response(422, Invalid({"email"})), false)
    ensures r.0.status == 200 <==>
      Required(email) && EmailShaped(email.value) && email.value in s.users && link == ResetLinkSent
    ensures Required(email) && EmailShaped(email.value) && email.value in s.users ==>
      r.0 == (if link == ResetLinkSent then Response(200, Message(LinkSent)) else Response(500, Message(LinkNotSent)))
    ensures r.1 <==> r.0.status == 200
  {
    if !(Required(email) && EmailShaped(email.value) && email.value in s.users) then
      (Response(422, Invalid({"email"})), false)
    else if link == ResetLinkSent then
      (Response(200, Message(LinkSent)), true)
    else
      (Response(500, Message(LinkNotSent)), false)
  }

  // ----------------------------------------------------- resend verification

  /** `user` is what `$request->user()` yields; calling a method on null
      raises, which Laravel answers with 500. The answer comes with whether a
      verification mail was sent. */
  function ResendVerification(user: Option<User>): (r: (Response, bool))
    ensures user.None? ==> r == (Response(500, Message(ServerError)), false)
    ensures user.Some? ==> r.0.status == 200
    ensures user.Some? ==> (r.1 <==> !user.value.HasVerifiedEmail())
    ensures user.Some? && user.value.HasVerifiedEmail() ==> r.0.body == Message(AlreadyVerified)
    ensures user.Some? && !user.value.HasVerifiedEmail() ==> r == (Response(200, Message(VerificationSent)), true)
  {
    if user.None? then (Response(500, Message(ServerError)), false)
    else if user.value.HasVerifiedEmail() then (Response(200, Message(AlreadyVerified)), false)
    else (Response(200, Message(VerificationSent)), true)
  }
}

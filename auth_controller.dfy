/** The credential controller's actions that write to the database,
    carried out step by step on a `Database` and proved to leave it as the
    matching function of `AuthRules` says. */
module AuthController {
  import opened Domain
  import opened AuthRules
  import opened Store

  method Register(db: Database, req: RegisterRequest, now: int) returns (resp: Response)
    modifies db
    ensures Transition(resp, db.State()) == AuthRules.Register(old(db.State()), req, now)
  {
    var errors := RegisterErrors(db.State(), req);
    if errors != {} {
      return Response(422, Invalid(errors));
    }
    var user := User(req.email.value, req.name.value, Hash(req.password.value), None, None, None, None);
    db.CreateUser(user);
    var token := db.CreateToken(user.email, "access_token", AllAbilities, now, None);
    resp := Response(201, Issued(token));
  }

  method Login(db: Database, req: LoginRequest, now: int) returns (resp: Response)
    modifies db
    ensures Transition(resp, db.State()) == AuthRules.Login(old(db.State()), req, now)
  {
    var errors := LoginErrors(req);
    if errors != {} {
      return Response(422, Invalid(errors));
    }
    if !CredentialsMatch(db.State(), req.email.value, req.password.value) {
      return Response(401, Message(InvalidCredentials));
    }
    var access := db.CreateToken(req.email.value, "access_token", {"access"}, now, None);
    var refresh := db.CreateToken(req.email.value, "refresh_token", {"refresh"}, now, None);
    resp := Response(200, Pair(access, refresh));
  }

  /** `current` is the token `auth:sanctum` resolved for the request. */
  method Refresh(db: Database, current: TokenId, now: int) returns (resp: Response)
    requires current in db.tokens
    modifies db
    ensures Transition(resp, db.State()) == AuthRules.Refresh(old(db.State()), current, now)
  {
    var owner := db.tokens[current].owner;
    db.DeleteToken(current);
    var access := db.CreateToken(owner, "access_token", AllAbilities, now, Some(now + RefreshedAccessMinutes));
    var refresh := db.CreateToken(owner, "refresh_token", {"refresh"}, now, Some(now + SevenDays));
    resp := Response(200, Pair(access, refresh));
  }

  method Logout(db: Database, current: TokenId) returns (resp: Response)
    requires current in db.tokens
    modifies db
    ensures Transition(resp, db.State()) == AuthRules.Logout(old(db.State()), current)
  {
    db.DeleteToken(current);
    resp := Response(200, Message(LoggedOut));
  }

  method LogoutAll(db: Database, current: TokenId) returns (resp: Response)
    requires current in db.tokens
    modifies db
    ensures Transition(resp, db.State()) == AuthRules.LogoutAll(old(db.State()), current)
  {
    db.DeleteTokensOf(db.tokens[current].owner);
    resp := Response(200, Message(LoggedOutEverywhere));
  }

  /** `tokenValid` is the password broker's verdict on the reset token and
      `rememberToken` the value `Str::random(60)` produced. */
  method ResetPassword(db: Database, req: ResetRequest, tokenValid: bool, rememberToken: string)
    returns (resp: Response)
    modifies db
    ensures Transition(resp, db.State()) == AuthRules.ResetPassword(old(db.State()), req, tokenValid, rememberToken)
  {
    var errors := ResetErrors(req);
    if errors != {} {
      return Response(422, Invalid(errors));
    }
    var email := req.email.value;
    if Broker(db.State(), email, tokenValid) != PasswordReset {
      return Response(422, Message(ResetFailed));
    }
    var user := db.users[email];
    db.UpdateUser(email, user.(password := Hash(req.password.value), rememberToken := Some(rememberToken)));
    resp := Response(200, Message(ResetDone));
  }
}

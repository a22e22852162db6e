/** The OAuth callback, one procedure for both providers: take the profile
    the provider exchange produced, check email, name and provider id for
    emptiness in that order, find or create the user by email, and mint one
    token for it. */
module SocialRules {
  import opened Domain

  datatype Provider = Google | Facebook

  /** What the provider exchange (`Socialite::driver(...)->stateless()->user()`)
      produced: the three profile attributes, or the message of the
      exception it threw. */
  datatype Exchange =
    | Profile(email: Option<string>, name: Option<string>, id: Option<string>)
    | Failed(message: string)

  const EmailMissing := "Email ausente ou inválido"
  const NameMissing := "Nome ausente ou inválido"

  function IdMissing(p: Provider): string {
    match p
    case Google => "ID do Google ausente ou inválido"
    case Facebook => "ID do Facebook ausente ou inválido"
  }

  function TokenName(p: Provider): string {
    match p
    case Google => "google-token"
    case Facebook => "facebook-token"
  }

  /** The message of the first empty attribute, email before name before id. */
  function FirstMissing(p: Provider, email: Option<string>, name: Option<string>, id: Option<string>): (m: Option<string>)
    ensures PhpEmpty(email) ==> m == Some(EmailMissing)
    ensures !PhpEmpty(email) && PhpEmpty(name) ==> m == Some(NameMissing)
    ensures !PhpEmpty(email) && !PhpEmpty(name) && PhpEmpty(id) ==> m == Some(IdMissing(p))
    ensures m.None? <==> !PhpEmpty(email) && !PhpEmpty(name) && !PhpEmpty(id)
  {
    if PhpEmpty(email) then Some(EmailMissing)
    else if PhpEmpty(name) then Some(NameMissing)
    else if PhpEmpty(id) then Some(IdMissing(p))
    else None
  }

  /** The row `firstOrCreate` inserts for a new email: the provider's id
      slot filled, the other empty, and a hash of a random password. */
  function NewSocialUser(p: Provider, email: Email, name: string, id: string, randomPassword: string): (u: User)
    ensures u.email == email && u.name == name && u.password == Hash(randomPassword)
    ensures u.googleId == (if p == Google then Some(id) else None)
    ensures u.facebookId == (if p == Facebook then Some(id) else None)
    ensures !u.HasVerifiedEmail() && u.rememberToken.None?
  {
    match p
    case Google => User(email, name, Hash(randomPassword), Some(id), None, None, None)
    case Facebook => User(email, name, Hash(randomPassword), None, Some(id), None, None)
  }

  /** `User::firstOrCreate(['email' => email], [...])`: the existing row if
      there is one, else a new row. */
  function FirstOrCreate(s: State, u: User): (r: State)
    ensures u.email in r.users
    ensures u.email in s.users ==> r == s
    ensures u.email !in s.users ==> OneUserAdded(s.users, r.users, u.email) && r.users[u.email] == u
    ensures r.tokens == s.tokens && r.nextId == s.nextId
    ensures Valid(s) ==> Valid(r)
  {
    if u.email in s.users then s else AddUser(s, u)
  }

  /** The callback; `randomPassword` is the value `Str::random(24)` produced. */
  function Callback(s: State, p: Provider, ex: Exchange, randomPassword: string, now: int): (t: Transition)
    ensures t.resp.status in {200, 422, 500}
    ensures t.resp.status != 200 ==> t.post == s
    ensures ex.Failed? ==> t.resp == Response(500, Message(ex.message))
    ensures ex.Profile? && PhpEmpty(ex.email) ==> t.resp == Response(422, Message(EmailMissing))
    ensures ex.Profile? && t.resp.status == 422 ==>
      t.resp.body.Message? && FirstMissing(p, ex.email, ex.name, ex.id) == Some(t.resp.body.text)
    ensures ex.Profile? && FirstMissing(p, ex.email, ex.name, ex.id).Some? ==>
      t.resp == Response(422, Message(FirstMissing(p, ex.email, ex.name, ex.id).value))
    ensures t.resp.status == 200 <==>
      ex.Profile? && !PhpEmpty(ex.email) && !PhpEmpty(ex.name) && !PhpEmpty(ex.id)
    ensures t.resp.status == 200 ==>
      var e := ex.email.value;
      && t.resp.body.Social?
      && t.resp.body.token == s.nextId
      && e in t.post.users
      && t.resp.body.user == t.post.users[e]
      && (e in s.users ==> t.post.users == s.users)
      && (e !in s.users ==>
            && OneUserAdded(s.users, t.post.users, e)
            && t.post.users[e] == NewSocialUser(p, e, ex.name.value, ex.id.value, randomPassword))
      && (Valid(s) ==> OnlyAdded(s.tokens, t.post.tokens, {s.nextId}))
      && s.nextId in t.post.tokens
      && t.post.tokens[s.nextId] == Token(e, TokenName(p), AllAbilities, now, None)
    ensures Valid(s) ==> Valid(t.post)
  {
    match ex
    case Failed(message) => Transition(Response(500, Message(message)), s)
    case Profile(email, name, id) =>
      var missing := FirstMissing(p, email, name, id);
      if missing.Some? then
        Transition(Response(422, Message(missing.value)), s)
      else
        var s1 := FirstOrCreate(s, NewSocialUser(p, email.value, name.value, id.value, randomPassword));
        var user := s1.users[email.value];
        Transition(Response(200, Social(s1.nextId, user)), Mint(s1, email.value, TokenName(p), AllAbilities, now, None))
  }

  /** Signing in again through either provider reuses the row as it is: the
      name, password and id slots of a user created earlier stay as they
      were, and no second row appears for the email. */
  lemma RepeatSignInReusesUser(s: State, p: Provider, q: Provider, ex: Exchange, ex2: Exchange,
                                  pw: string, pw2: string, now: int, later: int)
    requires Valid(s)
    requires Callback(s, p, ex, pw, now).resp.status == 200
    requires ex2.Profile? && ex2.email == ex.email
    requires Callback(Callback(s, p, ex, pw, now).post, q, ex2, pw2, later).resp.status == 200
    ensures
      var first := Callback(s, p, ex, pw, now);
      var second := Callback(first.post, q, ex2, pw2, later);
      && second.post.users == first.post.users
      && second.resp.body.user == first.resp.body.user
      && TokensOf(second.post, ex.email.value) == TokensOf(first.post, ex.email.value) + {first.post.nextId}
  {
    var first := Callback(s, p, ex, pw, now);
    var second := Callback(first.post, q, ex2, pw2, later);
    var e := ex.email.value;
    assert e in first.post.users;
    assert OnlyAdded(first.post.tokens, second.post.tokens, {first.post.nextId});
    assert second.post.tokens[first.post.nextId].owner == e;
  }
}

/** The callback carried out step by step on the database. */
module SocialAuthController {
  import opened Domain
  import opened SocialRules
  import opened Store

  method Callback(db: Database, p: Provider, ex: Exchange, randomPassword: string, now: int) returns (resp: Response)
    modifies db
    ensures Transition(resp, db.State()) == SocialRules.Callback(old(db.State()), p, ex, randomPassword, now)
  {
    if ex.Failed? {
      return Response(500, Message(ex.message));
    }
    var missing := FirstMissing(p, ex.email, ex.name, ex.id);
    if missing.Some? {
      return Response(422, Message(missing.value));
    }
    var email := ex.email.value;
    if email !in db.users {
      db.CreateUser(NewSocialUser(p, email, ex.name.value, ex.id.value, randomPassword));
    }
    var user := db.users[email];
    var token := db.CreateToken(email, TokenName(p), AllAbilities, now, None);
    resp := Response(200, Social(token, user));
  }
}

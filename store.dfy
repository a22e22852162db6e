/** The database the controllers write to: the `users` table and Sanctum's
    `personal_access_tokens` table, as one object whose fields the
    Eloquent operations update in place. */
module Store {
  import opened Domain

  class Database {
    var users: map<Email, User>
    var tokens: map<TokenId, Token>
    var nextId: TokenId

    /** The stores as a value, for the specifications. */
    function State(): State
      reads this
    {
      Domain.State(users, tokens, nextId)
    }

    constructor ()
      ensures State() == EmptyState
    {
      users, tokens, nextId := map[], map[], 0;
    }

    /** `User::create(...)`: the email column is unique, so callers check
        for the email first. */
    method CreateUser(u: User)
      requires u.email !in users
      modifies this
      ensures State() == AddUser(old(State()), u)
    {
      users := users[u.email := u];
    }

    /** `$user->forceFill([...])->save()` on the row stored under `e`. */
    method UpdateUser(e: Email, u: User)
      requires e in users
      modifies this
      ensures State() == SaveUser(old(State()), e, u)
    {
      users := users[e := u];
    }

    /** `$user->createToken(name, abilities, expiresAt)`; returns the new id. */
    method CreateToken(owner: Email, name: string, abilities: set<string>, now: int, expiresAt: Option<int>)
      returns (id: TokenId)
      modifies this
      ensures id == old(nextId)
      ensures State() == Mint(old(State()), owner, name, abilities, now, expiresAt)
    {
      id := nextId;
      tokens := tokens[id := Token(owner, name, abilities, now, expiresAt)];
      nextId := nextId + 1;
    }

    /** `$token->delete()`. */
    method DeleteToken(id: TokenId)
      modifies this
      ensures State() == Revoke(old(State()), id)
    {
      tokens := tokens - {id};
    }

    /** `$user->tokens()->delete()`. */
    method DeleteTokensOf(owner: Email)
      modifies this
      ensures State() == RevokeAll(old(State()), owner)
    {
      tokens := map id | id in tokens && tokens[id].owner != owner :: tokens[id];
    }
  }
}

/** Entities of the authentication backend: users, bearer tokens, the two
    stores they live in, and the HTTP responses the controllers produce.
    Library behaviour the controllers rely on (hashing, Sanctum's ability
    test, PHP's notion of an empty string) is stated here once. */
module Domain {

  datatype Option<+T> = None | Some(value: T)

  type Email = string

  /** A token's database id; it stands for the plaintext secret that
      Sanctum hands out once, at creation. */
  type TokenId = nat

  /** PHP's `empty()` on a string-or-null value, which is also the
      falsiness test of `$x ? … : …`: null, "" and "0" are empty. */
  predicate PhpEmpty(v: Option<string>) {
    v.None? || v.value == "" || v.value == "0"
  }

  /** The characters PHP's `trim` strips by default: space, tab, line
      feed, carriage return, NUL and vertical tab. */
  predicate TrimmedChar(c: char) {
    c == ' ' || c == '\t' || c == '\n' || c == '\r' || c as int == 0 || c as int == 11
  }

  /** A string `trim` turns into "". */
  predicate Blank(s: string) {
    forall i | 0 <= i < |s| :: TrimmedChar(s[i])
  }

  /** Laravel's `required` rule: null, and a string that is blank after
      `trim`, are missing. Fields the global middleware trims reach the
      rule already trimmed; passwords are not trimmed but are tested the
      same way. */
  predicate Required(v: Option<string>) {
    v.Some? && !Blank(v.value)
  }

  /** Laravel's `email` rule, narrowed to its shape: a local part, an `@`
      and a domain part. */
  predicate EmailShaped(e: string) {
    exists i | 0 < i < |e| - 1 :: e[i] == '@'
  }

  /** bcrypt, seen only through what the controllers use of it: `Hash::make`
      is injective and `Hash::check(p, h)` holds exactly when `h` was made
      from `p`. */
  datatype PasswordHash = Bcrypt(preimage: string)

  function Hash(password: string): PasswordHash {
    Bcrypt(password)
  }

  predicate HashCheck(password: string, h: PasswordHash) {
    Hash(password) == h
  }

  datatype User = User(
    email: Email,
    name: string,
    password: PasswordHash,
    googleId: Option<string>,
    facebookId: Option<string>,
    emailVerifiedAt: Option<int>,
    rememberToken: Option<string>)
  {
    predicate HasVerifiedEmail() { emailVerifiedAt.Some? }
  }

  /** A personal access token; times are integer minutes. */
  datatype Token = Token(
    owner: Email,
    name: string,
    abilities: set<string>,
    createdAt: int,
    expiresAt: Option<int>)

  /** Sanctum's `can`: the wildcard ability grants every ability. */
  predicate TokenCan(t: Token, ability: string) {
    "*" in t.abilities || ability in t.abilities
  }

  /** The abilities `createToken` gives when the caller names none. */
  const AllAbilities: set<string> := {"*"}

  /** Minutes from `now()` to `now()->addDays(7)`. */
  const SevenDays: int := 7 * 24 * 60

  /** The user store, keyed by email, and the token store, keyed by id;
      `nextId` is the id the next created token receives. */
  datatype State = State(users: map<Email, User>, tokens: map<TokenId, Token>, nextId: TokenId)

  const EmptyState: State := State(map[], map[], 0)

  /** What the database guarantees: the email column is unique, token ids
      are issued in increasing order, and every token belongs to a user. */
  ghost predicate Valid(s: State) {
    && (forall e :: e in s.users ==> s.users[e].email == e)
    && (forall id :: id in s.tokens ==> id < s.nextId && s.tokens[id].owner in s.users)
  }

  function TokensOf(s: State, owner: Email): (ids: set<TokenId>)
    ensures forall id :: id in ids <==> id in s.tokens && s.tokens[id].owner == owner
  {
    set id | id in s.tokens && s.tokens[id].owner == owner
  }

  /** `after` holds every token of `before`, unchanged, plus exactly the ids
      in `added`, none of which `before` had. */
  ghost predicate OnlyAdded(before: map<TokenId, Token>, after: map<TokenId, Token>, added: set<TokenId>) {
    && added !! before.Keys
    && after.Keys == before.Keys + added
    && forall id :: id in before ==> after[id] == before[id]
  }

  /** `after` holds every user of `before`, unchanged, plus the user `e`,
      which `before` did not have. */
  ghost predicate OneUserAdded(before: map<Email, User>, after: map<Email, User>, e: Email) {
    && e !in before
    && after.Keys == before.Keys + {e}
    && forall x :: x in before ==> after[x] == before[x]
  }

  /** `User::create` / `firstOrCreate`'s insert: a new row. */
  function AddUser(s: State, u: User): (r: State)
    requires u.email !in s.users
    ensures OneUserAdded(s.users, r.users, u.email) && r.users[u.email] == u
    ensures r.tokens == s.tokens && r.nextId == s.nextId
    ensures Valid(s) ==> Valid(r)
  {
    s.(users := s.users[u.email := u])
  }

  /** `save()` of the user row stored under `e`. */
  function SaveUser(s: State, e: Email, u: User): (r: State)
    requires e in s.users
    ensures r.users.Keys == s.users.Keys && r.users[e] == u
    ensures forall x :: x in s.users && x != e ==> r.users[x] == s.users[x]
    ensures r.tokens == s.tokens && r.nextId == s.nextId
    ensures Valid(s) && u.email == e ==> Valid(r)
  {
    s.(users := s.users[e := u])
  }

  /** `$user->createToken(name, abilities, expiresAt)` at minute `now`: the
      new token gets id `s.nextId`. */
  function Mint(s: State, owner: Email, name: string, abilities: set<string>, now: int, expiresAt: Option<int>): (r: State)
    ensures Valid(s) ==> OnlyAdded(s.tokens, r.tokens, {s.nextId})
    ensures s.nextId in r.tokens && r.tokens[s.nextId] == Token(owner, name, abilities, now, expiresAt)
    ensures r.users == s.users && r.nextId == s.nextId + 1
    ensures Valid(s) && owner in s.users ==> Valid(r)
  {
    s.(tokens := s.tokens[s.nextId := Token(owner, name, abilities, now, expiresAt)], nextId := s.nextId + 1)
  }

  /** `$token->delete()`: removes that token and no other. */
  function Revoke(s: State, id: TokenId): (r: State)
    ensures r.tokens.Keys == s.tokens.Keys - {id}
    ensures forall x :: x in r.tokens ==> r.tokens[x] == s.tokens[x]
    ensures r.users == s.users && r.nextId == s.nextId
    ensures Valid(s) ==> Valid(r)
  {
    s.(tokens := s.tokens - {id})
  }

  /** `$user->tokens()->delete()`: removes every token of `owner`. */
  function RevokeAll(s: State, owner: Email): (r: State)
    ensures TokensOf(r, owner) == {}
    ensures r.tokens.Keys == s.tokens.Keys - TokensOf(s, owner)
    ensures forall x :: x in r.tokens ==> r.tokens[x] == s.tokens[x]
    ensures forall o :: o != owner ==> TokensOf(r, o) == TokensOf(s, o)
    ensures r.users == s.users && r.nextId == s.nextId
    ensures Valid(s) ==> Valid(r)
  {
    s.(tokens := map id | id in s.tokens && s.tokens[id].owner != owner :: s.tokens[id])
  }

  /** The JSON payloads of the endpoints. */
  datatype Body =
    | Message(text: string)
    | Invalid(fields: set<string>)
    | Issued(token: TokenId)
    | Pair(access: TokenId, refresh: TokenId)
    | Social(token: TokenId, user: User)
    | Profile(user: User)

  datatype Response = Response(status: int, body: Body)

  /** What a request produces: the response and the stores afterwards. */
  datatype Transition = Transition(resp: Response, post: State)
}

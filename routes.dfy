/** The API routes: the `auth-general` rate-limiter key, the middleware
    each protected route runs in order, and each protected endpoint as its
    middleware chain followed by its controller action. */
module Routes {
  import opened Domain
  import opened Middleware
  import AuthRules

  // ------------------------------------------------------------ throttle key

  /** PHP's `strtolower` on one character: ASCII upper case only. */
  function LowerChar(c: char): char {
    if 'A' <= c <= 'Z' then (c as int + 32) as char else c
  }

  function Lower(s: string): (r: string)
    ensures |r| == |s|
    ensures forall i :: 0 <= i < |s| ==> r[i] == LowerChar(s[i])
  {
    if s == [] then [] else [LowerChar(s[0])] + Lower(s[1..])
  }

  /** Equal up to ASCII letter case. */
  predicate SameIgnoringCase(a: string, b: string) {
    |a| == |b| && forall i :: 0 <= i < |a| ==> LowerChar(a[i]) == LowerChar(b[i])
  }

  const KeyPrefix := "auth|"

  /** The `auth-general` limiter's key: the lower-cased email when the
      request carries a non-empty one, the client address otherwise. */
  function ThrottleKey(email: Option<string>, ip: string): (k: string)
    ensures |k| >= |KeyPrefix| && k[..|KeyPrefix|] == KeyPrefix
    ensures PhpEmpty(email) ==> k[|KeyPrefix|..] == ip
    ensures !PhpEmpty(email) ==>
      && SameIgnoringCase(k[|KeyPrefix|..], email.value)
      && forall i :: |KeyPrefix| <= i < |k| ==> !('A' <= k[i] <= 'Z')
  {
    if !PhpEmpty(email) then KeyPrefix + Lower(email.value) else KeyPrefix + ip
  }

  /** Two non-empty emails share a key exactly when they differ only in
      letter case. */
  lemma ThrottleKeyIgnoresCase(a: string, b: string, ip: string, ip2: string)
    requires !PhpEmpty(Some(a)) && !PhpEmpty(Some(b))
    ensures ThrottleKey(Some(a), ip) == ThrottleKey(Some(b), ip2) <==> SameIgnoringCase(a, b)
  {
    var ka, kb := ThrottleKey(Some(a), ip), ThrottleKey(Some(b), ip2);
    assert ka == KeyPrefix + Lower(a) && kb == KeyPrefix + Lower(b);
    if SameIgnoringCase(a, b) {
      assert Lower(a) == Lower(b);
    }
    if ka == kb {
      assert Lower(a) == ka[|KeyPrefix|..] == kb[|KeyPrefix|..] == Lower(b);
    }
  }

  // ------------------------------------------------------------------ chains

  /** A route middleware. `Bindings` is `SubstituteBindings`, which the
      `api` group puts in front of every route of this file; none of the
      modelled routes has a parameter, so it lets every request through. */
  datatype Stage = Sanctum | RefreshAbility | Throttle | Verified | Bindings

  /** What a middleware chain sees of a request: the bearer token presented,
      and the rate limiter's verdict. */
  datatype Request = Request(bearer: Option<TokenId>, limited: bool)

  /** Either the request goes on, with the token the guard resolved (if the
      chain has run the guard), or a stage answered. */
  datatype Gate = Next(auth: Option<TokenId>) | Halt(resp: Response)

  function AsGate(v: Verdict, auth: Option<TokenId>): Gate {
    match v
    case Continue => Next(auth)
    case Stop(r) => Halt(r)
  }

  function Step(m: Stage, s: State, req: Request, now: int, auth: Option<TokenId>): (g: Gate)
    requires auth.Some? ==> Resolved(s, auth.value)
    ensures g.Next? && g.auth.Some? ==> Resolved(s, g.auth.value)
    ensures g.Next? && (auth.Some? || m == Sanctum) ==> g.auth.Some?
  {
    match m
    case Sanctum =>
      var a := Authenticate(s, req.bearer, now);
      if a.None? then Halt(Response(401, Message(Unauthenticated))) else Next(a)
    case RefreshAbility => AsGate(Middleware.RefreshAbility(s, auth), auth)
    case Throttle => AsGate(Middleware.Throttle(req.limited), auth)
    case Verified => AsGate(Middleware.Verified(s, auth), auth)
    case Bindings => Next(auth)
  }

  /** Runs the stages in order; the first that answers ends the request. */
  function Run(chain: seq<Stage>, s: State, req: Request, now: int, auth: Option<TokenId>): (g: Gate)
    requires auth.Some? ==> Resolved(s, auth.value)
    ensures g.Next? && g.auth.Some? ==> Resolved(s, g.auth.value)
    ensures g.Next? && (auth.Some? || Sanctum in chain) ==> g.auth.Some?
    decreases |chain|
  {
    if chain == [] then Next(auth)
    else
      match Step(chain[0], s, req, now, auth)
      case Halt(r) => Halt(r)
      case Next(a) =>
        assert Sanctum in chain && chain[0] != Sanctum ==> Sanctum in chain[1..];
        Run(chain[1..], s, req, now, a)
  }

  /** Running a chain in two parts is running it whole: the second part
      starts only if the first let the request through. */
  lemma {:induction false} RunAppend(c1: seq<Stage>, c2: seq<Stage>, s: State, req: Request, now: int, auth: Option<TokenId>)
    requires auth.Some? ==> Resolved(s, auth.value)
    ensures Run(c1 + c2, s, req, now, auth) ==
      match Run(c1, s, req, now, auth)
      case Halt(r) => Halt(r)
      case Next(a) => Run(c2, s, req, now, a)
  {
    if c1 == [] {
      assert c1 + c2 == c2;
    } else {
      assert (c1 + c2)[0] == c1[0] && (c1 + c2)[1..] == c1[1..] + c2;
      match Step(c1[0], s, req, now, auth)
      case Halt(r) =>
      case Next(a) => RunAppend(c1[1..], c2, s, req, now, a);
    }
  }

  /** A chain that starts with the guard answers 401 to a request without a
      live token, whatever ability or verification checks follow it. */
  lemma AuthenticationFirst(rest: seq<Stage>, s: State, req: Request, now: int)
    requires Authenticate(s, req.bearer, now).None?
    ensures Run([Sanctum] + rest, s, req, now, None) == Halt(Response(401, Message(Unauthenticated)))
  {
    assert ([Sanctum] + rest)[0] == Sanctum;
  }

  // ------------------------------------------------------ middleware order

  /** Rank in the framework's default middleware priority list:
      `AuthenticatesRequests` before `ThrottleRequests` before
      `SubstituteBindings`. `refresh.ability` and `verified` are not in the
      list. */
  function Priority(m: Stage): Option<nat> {
    match m
    case Sanctum => Some(0)
    case Throttle => Some(1)
    case Bindings => Some(2)
    case RefreshAbility => None
    case Verified => None
  }

  /** The stages that have a priority appear in priority order. */
  predicate PriorityOrdered(chain: seq<Stage>) {
    forall j, k | 0 <= j < k < |chain| && Priority(chain[j]).Some? && Priority(chain[k]).Some? ::
      Priority(chain[j]).value <= Priority(chain[k]).value
  }

  /** One scan of the sorter from index `i`; `last` is the index and rank
      of the last ranked stage seen. The answer is the first ranked stage
      that outranks `last`, and the place it moves to, which is `last`'s. */
  function FindMove(chain: seq<Stage>, i: nat, last: Option<(nat, nat)>): (r: Option<(nat, nat)>)
    requires i <= |chain|
    requires last.Some? ==> last.value.0 < i
    ensures r.Some? ==> r.value.1 < r.value.0 < |chain|
    ensures r.None? ==>
      forall j, k | i <= j < k < |chain| && Priority(chain[j]).Some? && Priority(chain[k]).Some? ::
        Priority(chain[j]).value <= Priority(chain[k]).value
    ensures r.None? && last.Some? ==>
      forall j | i <= j < |chain| && Priority(chain[j]).Some? :: last.value.1 <= Priority(chain[j]).value
    decreases |chain| - i
  {
    if i == |chain| then None
    else
      match Priority(chain[i])
      case None => FindMove(chain, i + 1, last)
      case Some(p) =>
        if last.Some? && p < last.value.1 then Some((i, last.value.0))
        else FindMove(chain, i + 1, Some((i, p)))
  }

  /** Takes the stage at `from` out and puts it back in front of the stage
      at `to`. */
  function Move(chain: seq<Stage>, from: nat, to: nat): seq<Stage>
    requires to < from < |chain|
  {
    chain[..to] + [chain[from]] + chain[to..from] + chain[from + 1..]
  }

  /** A move only reorders the chain. */
  lemma MovePermutes(chain: seq<Stage>, from: nat, to: nat)
    requires to < from < |chain|
    ensures multiset(Move(chain, from, to)) == multiset(chain)
  {
    assert chain == chain[..to] + chain[to..from] + [chain[from]] + chain[from + 1..];
  }

  /** The router's sort of a route's middleware: move the first stage found
      out of order in front of the one it outranks, then start over. `fuel`
      bounds the number of moves; `None` means it ran out. */
  function SortMiddleware(chain: seq<Stage>, fuel: nat): (r: Option<seq<Stage>>)
    ensures r.Some? ==> multiset(r.value) == multiset(chain) && PriorityOrdered(r.value)
    decreases fuel
  {
    match FindMove(chain, 0, None)
    case None => Some(chain)
    case Some(m) =>
      if fuel == 0 then None
      else
        MovePermutes(chain, m.0, m.1);
        SortMiddleware(Move(chain, m.0, m.1), fuel - 1)
  }

  /** The `api` group's middleware, which the router places before a
      route's own. */
  const ApiGroup: seq<Stage> := [Bindings]

  /** The middleware lists as the routes name them. */
  const RefreshWritten: seq<Stage> := [Sanctum, RefreshAbility, Throttle, Verified]
  const UserWritten: seq<Stage> := [Sanctum, Verified]
  const LogoutWritten: seq<Stage> := [Sanctum, Throttle]
  const ResendWrittenAsWritten: seq<Stage> := [Throttle]
  const ResendWritten: seq<Stage> := [Sanctum, Throttle]

  /** The chains the router runs. */
  const RefreshRoute: seq<Stage> := [Sanctum, Throttle, Bindings, RefreshAbility, Verified]
  const UserRoute: seq<Stage> := [Sanctum, Bindings, Verified]
  const LogoutRoute: seq<Stage> := [Sanctum, Throttle, Bindings]
  const LogoutAllRoute: seq<Stage> := [Sanctum, Throttle, Bindings]
  const ResendRouteAsWritten: seq<Stage> := [Throttle, Bindings]
  const ResendRoute: seq<Stage> := [Sanctum, Throttle, Bindings]

  /** /refresh: the sort moves the guard in front of the group's
      `SubstituteBindings`, then the rate limiter in front of it too, which
      puts the limiter before the `refresh` ability gate, against the
      written order. */
  lemma RefreshRouteSorted()
    ensures SortMiddleware(ApiGroup + RefreshWritten, 2) == Some(RefreshRoute)
  {
    var c0 := ApiGroup + RefreshWritten;
    assert c0 == [Bindings, Sanctum, RefreshAbility, Throttle, Verified];
    assert FindMove(c0, 1, Some((0, 2))) == Some((1, 0));
    assert FindMove(c0, 0, None) == Some((1, 0));
    var c1 := Move(c0, 1, 0);
    assert c1 == [Sanctum, Bindings, RefreshAbility, Throttle, Verified];
    assert FindMove(c1, 3, Some((1, 2))) == Some((3, 1));
    assert FindMove(c1, 2, Some((1, 2))) == Some((3, 1));
    assert FindMove(c1, 1, Some((0, 0))) == Some((3, 1));
    assert FindMove(c1, 0, None) == Some((3, 1));
    var c2 := Move(c1, 3, 1);
    assert c2 == RefreshRoute;
    assert FindMove(c2, 5, Some((2, 2))) == None;
    assert FindMove(c2, 4, Some((2, 2))) == None;
    assert FindMove(c2, 3, Some((2, 2))) == None;
    assert FindMove(c2, 2, Some((1, 1))) == None;
    assert FindMove(c2, 1, Some((0, 0))) == None;
    assert FindMove(c2, 0, None) == None;
    assert SortMiddleware(c1, 1) == SortMiddleware(c2, 0) == Some(c2);
  }

  /** /user: only the guard moves. */
  lemma UserRouteSorted()
    ensures SortMiddleware(ApiGroup + UserWritten, 1) == Some(UserRoute)
  {
    var c0 := ApiGroup + UserWritten;
    assert c0 == [Bindings, Sanctum, Verified];
    assert FindMove(c0, 1, Some((0, 2))) == Some((1, 0));
    assert FindMove(c0, 0, None) == Some((1, 0));
    var c1 := Move(c0, 1, 0);
    assert c1 == UserRoute;
    assert SortMiddleware(c0, 1) == SortMiddleware(c1, 0);
    assert FindMove(c1, 3, Some((1, 2))) == None;
    assert FindMove(c1, 2, Some((1, 2))) == None;
    assert FindMove(c1, 1, Some((0, 0))) == None;
    assert FindMove(c1, 0, None) == None;
  }

  /** /logout and /logout-all, and the corrected resend route: the guard and
      the limiter both move in front of `SubstituteBindings`, keeping their
      written order. */
  lemma GuardedThrottledRouteSorted()
    ensures SortMiddleware(ApiGroup + LogoutWritten, 2) == Some(LogoutRoute)
    ensures LogoutAllRoute == LogoutRoute && ResendWritten == LogoutWritten && ResendRoute == LogoutRoute
  {
    var c0 := ApiGroup + LogoutWritten;
    assert c0 == [Bindings, Sanctum, Throttle];
    assert FindMove(c0, 1, Some((0, 2))) == Some((1, 0));
    assert FindMove(c0, 0, None) == Some((1, 0));
    var c1 := Move(c0, 1, 0);
    assert c1 == [Sanctum, Bindings, Throttle];
    assert FindMove(c1, 2, Some((1, 2))) == Some((2, 1));
    assert FindMove(c1, 1, Some((0, 0))) == Some((2, 1));
    assert FindMove(c1, 0, None) == Some((2, 1));
    var c2 := Move(c1, 2, 1);
    assert c2 == LogoutRoute;
    assert SortMiddleware(c1, 1) == SortMiddleware(c2, 0);
    assert FindMove(c2, 3, Some((2, 2))) == None;
    assert FindMove(c2, 2, Some((1, 1))) == None;
    assert FindMove(c2, 1, Some((0, 0))) == None;
    assert FindMove(c2, 0, None) == None;
  }

  /** The resend route as written: only the limiter moves. */
  lemma ResendRouteAsWrittenSorted()
    ensures SortMiddleware(ApiGroup + ResendWrittenAsWritten, 1) == Some(ResendRouteAsWritten)
  {
    var c0 := ApiGroup + ResendWrittenAsWritten;
    assert c0 == [Bindings, Throttle];
    assert FindMove(c0, 1, Some((0, 2))) == Some((1, 0));
    assert FindMove(c0, 0, None) == Some((1, 0));
    var c1 := Move(c0, 1, 0);
    assert c1 == ResendRouteAsWritten;
    assert SortMiddleware(c0, 1) == SortMiddleware(c1, 0);
    assert FindMove(c1, 2, Some((1, 2))) == None;
    assert FindMove(c1, 1, Some((0, 1))) == None;
    assert FindMove(c1, 0, None) == None;
  }

  /** The token the guard resolves for `req`, when it is live and its owner
      exists. */
  predicate LiveBearer(s: State, req: Request, now: int) {
    Authenticate(s, req.bearer, now).Some?
  }

  const Unauth := Response(401, Message(Unauthenticated))

  // --------------------------------------------------------------- endpoints

  /** POST /refresh: guard, rate limit, `refresh` ability, verified email,
      then rotation. */
  function RefreshEndpoint(s: State, req: Request, now: int): (t: Transition)
    ensures !LiveBearer(s, req, now) ==> t == Transition(Unauth, s)
    ensures LiveBearer(s, req, now) && req.limited ==>
      t == Transition(Response(429, Message(TooManyAttempts)), s)
    ensures LiveBearer(s, req, now) && !req.limited && !TokenCan(s.tokens[req.bearer.value], "refresh") ==>
      t == Transition(Response(403, Message(RefreshRefused)), s)
    ensures LiveBearer(s, req, now) && TokenCan(s.tokens[req.bearer.value], "refresh") && !req.limited
            && !OwnerVerified(s, req.bearer.value) ==>
      t == Transition(Response(403, Message(EmailNotVerified)), s)
    ensures LiveBearer(s, req, now) && TokenCan(s.tokens[req.bearer.value], "refresh") && !req.limited
            && OwnerVerified(s, req.bearer.value) ==>
      t == AuthRules.Refresh(s, req.bearer.value, now)
  {
    match Run(RefreshRoute, s, req, now, None)
    case Halt(r) => Transition(r, s)
    case Next(a) => AuthRules.Refresh(s, a.value, now)
  }

  /** GET /user: guard, verified email, then the user's row. */
  function UserEndpoint(s: State, req: Request, now: int): (t: Transition)
    ensures t.post == s
    ensures !LiveBearer(s, req, now) ==> t.resp == Unauth
    ensures LiveBearer(s, req, now) && !OwnerVerified(s, req.bearer.value) ==>
      t.resp == Response(403, Message(EmailNotVerified))
    ensures LiveBearer(s, req, now) && OwnerVerified(s, req.bearer.value) ==>
      t.resp == Response(200, Profile(s.users[s.tokens[req.bearer.value].owner]))
  {
    match Run(UserRoute, s, req, now, None)
    case Halt(r) => Transition(r, s)
    case Next(a) => Transition(Response(200, Profile(s.users[s.tokens[a.value].owner])), s)
  }

  /** POST /logout: guard and rate limit only; no verification needed. */
  function LogoutEndpoint(s: State, req: Request, now: int): (t: Transition)
    ensures !LiveBearer(s, req, now) ==> t == Transition(Unauth, s)
    ensures LiveBearer(s, req, now) && req.limited ==> t == Transition(Response(429, Message(TooManyAttempts)), s)
    ensures LiveBearer(s, req, now) && !req.limited ==> t == AuthRules.Logout(s, req.bearer.value)
  {
    match Run(LogoutRoute, s, req, now, None)
    case Halt(r) => Transition(r, s)
    case Next(a) => AuthRules.Logout(s, a.value)
  }

  /** POST /logout-all: guard and rate limit only; no verification needed. */
  function LogoutAllEndpoint(s: State, req: Request, now: int): (t: Transition)
    ensures !LiveBearer(s, req, now) ==> t == Transition(Unauth, s)
    ensures LiveBearer(s, req, now) && req.limited ==> t == Transition(Response(429, Message(TooManyAttempts)), s)
    ensures LiveBearer(s, req, now) && !req.limited ==> t == AuthRules.LogoutAll(s, req.bearer.value)
  {
    match Run(LogoutAllRoute, s, req, now, None)
    case Halt(r) => Transition(r, s)
    case Next(a) => AuthRules.LogoutAll(s, a.value)
  }

  /** The user `$request->user()` yields after a chain: the owner of the
      resolved token, or null when no guard ran. */
  function RequestUser(s: State, auth: Option<TokenId>): Option<User>
    requires auth.Some? ==> Resolved(s, auth.value)
  {
    if auth.Some? then Some(s.users[s.tokens[auth.value].owner]) else None
  }

  /** POST /email/verification-notification as routed: only the rate
      limiter runs, so the handler finds no user. The answer comes with
      whether a verification mail was sent. */
  function ResendEndpointAsWritten(s: State, req: Request, now: int): (r: (Response, bool))
    ensures req.limited ==> r == (Response(429, Message(TooManyAttempts)), false)
    ensures !req.limited ==> r == AuthRules.ResendVerification(None)
  {
    match Run(ResendRouteAsWritten, s, req, now, None)
    case Halt(resp) => (resp, false)
    case Next(a) => AuthRules.ResendVerification(RequestUser(s, a))
  }

  /** As routed, even a request with a live token for an unverified user
      gets 500 and no mail. */
  lemma ResendAsWrittenFailsForTokenHolders(s: State, req: Request, now: int)
    requires LiveBearer(s, req, now) && !req.limited
    ensures ResendEndpointAsWritten(s, req, now) == (Response(500, Message(AuthRules.ServerError)), false)
  {
  }

  /** The route with the guard in front: 401 without a live token, 429
      when the limiter refuses, and the handler's answer for the token's
      owner otherwise. */
  function ResendEndpoint(s: State, req: Request, now: int): (r: (Response, bool))
    ensures !LiveBearer(s, req, now) ==> r == (Unauth, false)
    ensures LiveBearer(s, req, now) && req.limited ==> r == (Response(429, Message(TooManyAttempts)), false)
    ensures LiveBearer(s, req, now) && !req.limited ==>
      var u := s.users[s.tokens[req.bearer.value].owner];
      && r.0.status == 200
      && (r.1 <==> !u.HasVerifiedEmail())
  {
    match Run(ResendRoute, s, req, now, None)
    case Halt(resp) => (resp, false)
    case Next(a) => AuthRules.ResendVerification(RequestUser(s, a))
  }
}

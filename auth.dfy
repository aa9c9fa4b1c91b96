/** The credential cache of the client: one bearer token, obtained by a single-flight login.

    The asynchronous `login()` is split into the events a caller can observe: a call (which
    joins the login in flight, returns the cached token, or starts a login) and the settlement
    of the started login (which stores the token on success and always clears the in-flight
    marker). The pure transition functions below are the specification; `AuthService` is the
    object whose fields the source mutates, and its methods are proved against them. */
module Auth {
  import opened Wrappers
  import opened JsBuiltins
  import opened Http
  import opened FileTypes

  /** The `data` of a login reply. Only `accessToken` is read (refresh token, token type and
      expiry are ignored by the client); it may be missing. */
  datatype LoginData = LoginData(accessToken: Option<string>)

  /** What the login endpoint answers; `data` may be null. */
  type LoginReply = HttpResponse<ApiResponse<Option<LoginData>>>

  /** The token a login reply yields, or the error `performLogin` throws. */
  function PerformLogin(reply: LoginReply): (r: Result<string, Error>)
    ensures r.Ok? <==>
      && reply.ok && reply.body.Parsed?
      && reply.body.value.success
      && reply.body.value.data.Some?
      && Truthy(reply.body.value.data.value.accessToken)
    ensures r.Ok? ==> r.value != "" && reply.body.value.data.value.accessToken == Some(r.value)
    ensures !reply.ok ==> r == Err(Error("Login failed"))
    ensures reply.ok && reply.body.Parsed? && r.Err? ==> r == Err(Error("Invalid login response"))
    ensures reply.ok && reply.body.Unparseable? ==> r == Err(Error(reply.body.syntaxMessage))
  {
    if !reply.ok then Err(Error("Login failed"))
    else
      match reply.body
      case Unparseable(syntaxMessage) => Err(Error(syntaxMessage))
      case Parsed(envelope, _) =>
        if !envelope.success || envelope.data.None? || !Truthy(envelope.data.value.accessToken)
        then Err(Error("Invalid login response"))
        else Ok(envelope.data.value.accessToken.value)
  }

  // ---------------------------------------------------------------------------
  // The state machine
  // ---------------------------------------------------------------------------

  /** The two fields of the service: the cached token (`null` is None) and whether
      `loginPromise` is non-null, i.e. a login is in flight. */
  datatype AuthModel = AuthModel(accessToken: Option<string>, loginInFlight: bool)

  const InitialAuth := AuthModel(None, false)

  /** How a call of `login()` is served. */
  datatype LoginOutcome =
    | Joined               // awaits the login already in flight
    | Cached(token: string) // resolves at once with the stored token
    | Started              // begins a new `performLogin` exchange

  /** What holds in every state the service can reach: a login is only in flight while no token
      is stored, and a stored token is never empty. */
  ghost predicate Inv(s: AuthModel) {
    && (s.loginInFlight ==> s.accessToken.None?)
    && (s.accessToken.Some? ==> s.accessToken.value != "")
  }

  /** A call of `login()`: the in-flight check comes before the cached-token check. */
  function LoginStep(s: AuthModel): (r: (LoginOutcome, AuthModel))
    ensures r.0.Joined? <==> s.loginInFlight
    ensures r.0.Cached? <==> !s.loginInFlight && Truthy(s.accessToken)
    ensures r.0.Cached? ==> s.accessToken == Some(r.0.token)
    ensures r.0.Started? ==> r.1 == s.(loginInFlight := true)
    ensures !r.0.Started? ==> r.1 == s
  {
    if s.loginInFlight then (Joined, s)
    else if Truthy(s.accessToken) then (Cached(s.accessToken.value), s)
    else (Started, s.(loginInFlight := true))
  }

  /** The started login settles with `reply`: the token is stored on success, kept on failure,
      and the in-flight marker is cleared either way (the `finally`). The result is what the
      starting caller and every joined caller receive. */
  function SettleStep(s: AuthModel, reply: LoginReply): (r: (Result<string, Error>, AuthModel))
    ensures r.0 == PerformLogin(reply)
    ensures !r.1.loginInFlight
    ensures r.0.Ok? ==> r.1.accessToken == Some(r.0.value)
    ensures r.0.Err? ==> r.1.accessToken == s.accessToken
  {
    var result := PerformLogin(reply);
    (result, AuthModel(if result.Ok? then Some(result.value) else s.accessToken, false))
  }

  /** `clearToken()`: forgets the token and leaves a login in flight alone. */
  function ClearStep(s: AuthModel): (r: AuthModel)
    ensures r.accessToken.None? && r.loginInFlight == s.loginInFlight
  {
    s.(accessToken := None)
  }

  /** A call served with the cached-token check placed before the in-flight check. */
  function TokenFirstLoginStep(s: AuthModel): (LoginOutcome, AuthModel) {
    if Truthy(s.accessToken) then (Cached(s.accessToken.value), s)
    else if s.loginInFlight then (Joined, s)
    else (Started, s.(loginInFlight := true))
  }

  /** `login()` checks for a login in flight before it checks for a cached token; on every
      reachable state, checking the token first serves a call identically. */
  lemma CheckOrderIrrelevant(s: AuthModel)
    requires Inv(s)
    ensures LoginStep(s) == TokenFirstLoginStep(s)
  {
  }

  // ---------------------------------------------------------------------------
  // Traces of calls, settlements and invalidations
  // ---------------------------------------------------------------------------

  datatype Event = Call | Resolve(reply: LoginReply) | Clear

  datatype Observation = Called(outcome: LoginOutcome) | Resolved(result: Result<string, Error>) | Cleared

  /** A login can only settle while one is in flight. */
  predicate Enabled(s: AuthModel, e: Event) {
    e.Resolve? ==> s.loginInFlight
  }

  function Step(s: AuthModel, e: Event): (Observation, AuthModel) {
    match e
    case Call => var (o, s') := LoginStep(s); (Called(o), s')
    case Resolve(reply) => var (r, s') := SettleStep(s, reply); (Resolved(r), s')
    case Clear => (Cleared, ClearStep(s))
  }

  /** The observations and final state of a sequence of events. */
  function Run(s: AuthModel, es: seq<Event>): (seq<Observation>, AuthModel)
    decreases |es|
  {
    if es == [] then ([], s)
    else
      var (o, s1) := Step(s, es[0]);
      var (os, s2) := Run(s1, es[1..]);
      ([o] + os, s2)
  }

  /** Every event of the sequence can happen when it comes. */
  predicate Admissible(s: AuthModel, es: seq<Event>)
    decreases |es|
  {
    es == [] || (Enabled(s, es[0]) && Admissible(Step(s, es[0]).1, es[1..]))
  }

  function Indicator(b: bool): nat { if b then 1 else 0 }

  /** The number of `performLogin` exchanges started in a sequence of observations. */
  function CountStarted(os: seq<Observation>): nat
    decreases |os|
  {
    if os == [] then 0 else Indicator(os[0] == Called(Started)) + CountStarted(os[1..])
  }

  /** The number of login settlements in a sequence of observations. */
  function CountResolved(os: seq<Observation>): nat
    decreases |os|
  {
    if os == [] then 0 else Indicator(os[0].Resolved?) + CountResolved(os[1..])
  }

  function Calls(n: nat): (es: seq<Event>)
    ensures |es| == n && forall i :: 0 <= i < n ==> es[i] == Call
  {
    seq(n, _ => Call)
  }

  function Repeat(o: Observation, n: nat): (os: seq<Observation>)
    ensures |os| == n && forall i :: 0 <= i < n ==> os[i] == o
  {
    seq(n, _ => o)
  }

  lemma StepPreservesInv(s: AuthModel, e: Event)
    requires Inv(s)
    ensures Inv(Step(s, e).1)
  {
  }

  /** The invariant holds after any sequence of events from a state where it holds. */
  lemma {:induction false} RunPreservesInv(s: AuthModel, es: seq<Event>)
    requires Inv(s)
    ensures Inv(Run(s, es).1)
    decreases |es|
  {
    if es != [] {
      StepPreservesInv(s, es[0]);
      RunPreservesInv(Step(s, es[0]).1, es[1..]);
    }
  }

  /** Exchanges started and settled balance: the difference is exactly the change of the in-flight
      marker, so starts and settlements alternate. */
  lemma {:induction false} LoginAccounting(s: AuthModel, es: seq<Event>)
    requires Admissible(s, es)
    ensures var (os, s') := Run(s, es);
      CountStarted(os) + Indicator(s.loginInFlight) == CountResolved(os) + Indicator(s'.loginInFlight)
    decreases |es|
  {
    if es != [] {
      LoginAccounting(Step(s, es[0]).1, es[1..]);
    }
  }

  /** At most one login is in flight at any time: from the initial state, every prefix of any
      admissible history has started at most one exchange more than it has settled. */
  lemma AtMostOneLoginInFlight(es: seq<Event>)
    requires Admissible(InitialAuth, es)
    ensures var os := Run(InitialAuth, es).0;
      CountResolved(os) <= CountStarted(os) <= CountResolved(os) + 1
  {
    LoginAccounting(InitialAuth, es);
  }

  /** While a login is in flight, every call joins it and nothing changes. */
  lemma {:induction false} CallsJoinInFlight(s: AuthModel, n: nat)
    requires s.loginInFlight
    ensures Run(s, Calls(n)) == (Repeat(Called(Joined), n), s)
    decreases n
  {
    if n > 0 {
      assert Calls(n)[1..] == Calls(n - 1);
      CallsJoinInFlight(s, n - 1);
      assert [Called(Joined)] + Repeat(Called(Joined), n - 1) == Repeat(Called(Joined), n);
    }
  }

  lemma {:induction false} RunAppend(s: AuthModel, a: seq<Event>, b: seq<Event>)
    ensures var (os1, s1) := Run(s, a); var (os2, s2) := Run(s1, b);
      Run(s, a + b) == (os1 + os2, s2)
    decreases |a|
  {
    if a == [] {
      assert a + b == b;
      var (os2, s2) := Run(s, b);
      assert [] + os2 == os2;
    } else {
      assert (a + b)[0] == a[0] && (a + b)[1..] == a[1..] + b;
      var (o, s1) := Step(s, a[0]);
      RunAppend(s1, a[1..], b);
      var (os1, t1) := Run(s1, a[1..]);
      var (os2, t2) := Run(t1, b);
      assert [o] + (os1 + os2) == ([o] + os1) + os2;
    }
  }

  /** Single flight: with no token and no login in flight, `n + 1` calls issued before the login
      settles start exactly one exchange; the others join it, and every one of them receives the
      one settlement's result, which is also what is cached. */
  lemma ConcurrentCallsShareOneLogin(s: AuthModel, n: nat, reply: LoginReply)
    requires Inv(s) && !s.loginInFlight && s.accessToken.None?
    ensures var (os, s') := Run(s, Calls(n + 1) + [Resolve(reply)]);
      && os == [Called(Started)] + Repeat(Called(Joined), n) + [Resolved(PerformLogin(reply))]
      && CountStarted(os) == 1
      && !s'.loginInFlight
      && s'.accessToken == (if PerformLogin(reply).Ok? then Some(PerformLogin(reply).value) else None)
  {
    var s1 := s.(loginInFlight := true);
    assert Calls(n + 1) == [Call] + Calls(n);
    RunAppend(s, [Call], Calls(n));
    CallsJoinInFlight(s1, n);
    RunAppend(s, Calls(n + 1), [Resolve(reply)]);
    var os := [Called(Started)] + Repeat(Called(Joined), n) + [Resolved(PerformLogin(reply))];
    CountStartedOfBurst(n, PerformLogin(reply));
  }

  lemma {:induction false} CountStartedOfBurst(n: nat, r: Result<string, Error>)
    ensures CountStarted([Called(Started)] + Repeat(Called(Joined), n) + [Resolved(r)]) == 1
  {
    var os := [Called(Started)] + Repeat(Called(Joined), n) + [Resolved(r)];
    assert os[1..] == Repeat(Called(Joined), n) + [Resolved(r)];
    NoStartsAmongJoins(n, r);
  }

  lemma {:induction false} NoStartsAmongJoins(n: nat, r: Result<string, Error>)
    ensures CountStarted(Repeat(Called(Joined), n) + [Resolved(r)]) == 0
    decreases n
  {
    var os := Repeat(Called(Joined), n) + [Resolved(r)];
    if n == 0 {
      assert os == [Resolved(r)];
      assert os[1..] == [];
    } else {
      assert os[1..] == Repeat(Called(Joined), n - 1) + [Resolved(r)];
      NoStartsAmongJoins(n - 1, r);
    }
  }

  /** Once a token is cached, no further exchange is started until the token is cleared, however
      many calls come: every admissible history without `Clear` only returns the cached token. */
  lemma {:induction false} CachedTokenIsReused(s: AuthModel, es: seq<Event>)
    requires Inv(s) && !s.loginInFlight && Truthy(s.accessToken)
    requires Admissible(s, es) && Clear !in es
    ensures var (os, s') := Run(s, es);
      && os == Repeat(Called(Cached(s.accessToken.value)), |es|)
      && CountStarted(os) == 0
      && s' == s
    decreases |es|
  {
    if es != [] {
      assert es[0] == Call;
      assert Clear !in es[1..] by { assert forall e :: e in es[1..] ==> e in es; }
      CachedTokenIsReused(s, es[1..]);
      var o := Called(Cached(s.accessToken.value));
      assert [o] + Repeat(o, |es| - 1) == Repeat(o, |es|);
    }
  }

  /** A failed login is not cached: the marker is cleared, no token is stored, and the next call
      starts a new exchange. */
  lemma RetryAfterFailedLogin(s: AuthModel, reply: LoginReply)
    requires Inv(s) && s.loginInFlight && PerformLogin(reply).Err?
    ensures var s' := SettleStep(s, reply).1;
      !s'.loginInFlight && s'.accessToken.None? && LoginStep(s').0 == Started
  {
  }

  /** Clearing the token does not cancel a login in flight: when it succeeds, its token is stored. */
  lemma ClearDoesNotCancelLogin(s: AuthModel, reply: LoginReply)
    requires s.loginInFlight && PerformLogin(reply).Ok?
    ensures var s' := SettleStep(ClearStep(s), reply).1;
      s'.accessToken == Some(PerformLogin(reply).value) && !s'.loginInFlight
  {
  }

  // ---------------------------------------------------------------------------
  // The authorization header
  // ---------------------------------------------------------------------------

  const BearerPrefix := "Bearer "

  /** `getAuthHeader()` applied to what `login()` delivers: the token becomes
      `Authorization: Bearer <token>`, and a login failure propagates unchanged. */
  function AuthHeader(token: Result<string, Error>): (h: Result<Header, Error>)
    ensures token.Err? <==> h.Err?
    ensures token.Err? ==> h.error == token.error
    ensures token.Ok? ==> h.value.name == "Authorization" && BearerToken(h.value) == Some(token.value)
  {
    match token
    case Ok(t) =>
      var h := Header("Authorization", BearerPrefix + t);
      assert h.value[|BearerPrefix|..] == t;
      Ok(h)
    case Err(e) => Err(e)
  }

  /** The token carried by a bearer authorization header, if it is one. */
  function BearerToken(h: Header): Option<string> {
    if h.name == "Authorization" && |h.value| >= |BearerPrefix| && h.value[..|BearerPrefix|] == BearerPrefix
    then Some(h.value[|BearerPrefix|..])
    else None
  }

  /** Different tokens give different headers. */
  lemma AuthHeaderInjective(t1: string, t2: string)
    requires AuthHeader(Ok(t1)) == AuthHeader(Ok(t2))
    ensures t1 == t2
  {
  }

  // ---------------------------------------------------------------------------
  // The service object
  // ---------------------------------------------------------------------------

  class AuthService {
    var accessToken: Option<string>
    /** Stands for `loginPromise != null`. */
    var loginInFlight: bool

    function Model(): AuthModel
      reads this
    {
      AuthModel(accessToken, loginInFlight)
    }

    ghost predicate Valid()
      reads this
    {
      Inv(Model())
    }

    constructor ()
      ensures Valid() && Model() == InitialAuth
    {
      accessToken := None;
      loginInFlight := false;
    }

    /** The synchronous part of `login()`, up to its `await`. */
    method Login() returns (outcome: LoginOutcome)
      requires Valid()
      modifies this
      ensures Valid()
      ensures (outcome, Model()) == LoginStep(old(Model()))
    {
      if loginInFlight {
        return Joined;
      }
      if accessToken.Some? && accessToken.value != "" {
        return Cached(accessToken.value);
      }
      loginInFlight := true;
      outcome := Started;
    }

    /** The continuation of the `login()` that started the exchange, once `performLogin` settles
        with `reply`: the `try` stores the token, the `finally` clears the marker. */
    method CompleteLogin(reply: LoginReply) returns (result: Result<string, Error>)
      requires Valid() && loginInFlight
      modifies this
      ensures Valid()
      ensures (result, Model()) == SettleStep(old(Model()), reply)
    {
      result := PerformLogin(reply);
      if result.Ok? {
        accessToken := Some(result.value);
      }
      loginInFlight := false;
    }

    method GetAccessToken() returns (token: Option<string>)
      ensures token == accessToken
    {
      token := accessToken;
    }

    method ClearToken()
      requires Valid()
      modifies this
      ensures Valid()
      ensures Model() == ClearStep(old(Model()))
    {
      accessToken := None;
    }
  }
}
